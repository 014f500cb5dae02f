/** What every step of the broker keeps. */
module Invariants {
  import opened Types
  import opened Subscriptions
  import opened Sessions
  import opened Storage
  import opened Routing
  import opened StateMachine

  /** Connection k is bound to client c. */
  ghost predicate IsFor(conns: map<ConnId, Connection>, k: ConnId, c: ClientId) {
    k in conns && conns[k].Bound? && conns[k].clientId == c
  }

  /** A session is stored under its own id, is online exactly while it has a connection, and that
      connection is bound to the session's client. */
  ghost predicate SessionsOk(sessions: SessionTable, conns: map<ConnId, Connection>) {
    forall c :: c in sessions ==>
      var s := sessions[c];
      && s.clientId == c
      && (s.online <==> s.conn.Some?)
      && (s.conn.Some? ==> s.conn.value in conns && conns[s.conn.value].Bound? && conns[s.conn.value].clientId == c)
  }

  /** A bound connection has a session; a device is bound under its own device id only. */
  ghost predicate ConnsOk(sessions: SessionTable, conns: map<ConnId, Connection>) {
    forall k :: k in conns && conns[k].Bound? ==>
      && conns[k].clientId in sessions && conns[k].clientId != ""
      && (conns[k].claims.role == Device ==> conns[k].claims.deviceId == conns[k].clientId)
  }

  /** The two copies of a client's subscriptions agree between handlers. */
  ghost predicate StoresAgree(sessions: SessionTable, registry: SubTable) {
    && registry.Keys <= sessions.Keys
    && forall c :: c in sessions ==> sessions[c].subscriptions == SubsOf(registry, c)
  }

  ghost predicate HubOk(h: Hub) {
    SessionsOk(h.sessions, h.conns) && ConnsOk(h.sessions, h.conns) && StoresAgree(h.sessions, h.registry)
  }

  ghost predicate Inv(b: Broker) {
    HubOk(b.hub) && TablesOk(b.tables)
  }

  lemma ConnectedOk(h: Hub, conn: ConnId, id: ClientId, claims: Claims, phase: Phase)
    requires HubOk(h) && conn !in h.conns
    requires id != "" && (claims.role == Device ==> claims.deviceId == id)
    ensures HubOk(Hub(Connected(h.sessions, id, claims, conn), h.registry, h.conns[conn := Bound(id, claims, phase)]))
  {
  }

  lemma AcceptInv(b: Broker, e: Event)
    requires Inv(b) && e.Accept? && Enabled(b, e)
    ensures Inv(Step(b, e))
  {
    if Acceptable(e.hello, e.claims) {
      var phase := if e.replyOk then Replaying else Ended;
      ConnectedOk(b.hub, e.conn, ClientOf(e.hello.value, e.claims.value), e.claims.value, phase);
    } else {
      assert Step(b, e).hub == b.hub.(conns := b.hub.conns[e.conn := Rejected]);
    }
  }

  lemma EndInv(b: Broker, conn: ConnId)
    requires Inv(b) && IsBound(b, conn)
    ensures Inv(EndConnection(b, conn))
  {
  }

  lemma SubscribedInv(b: Broker, clientId: ClientId, subs: seq<Subscription>)
    requires Inv(b) && clientId in b.hub.sessions
    ensures Inv(Subscribed(b, clientId, subs))
  {
  }

  /** Publishing leaves the hub and the limiter alone. */
  lemma PublishFrame(b: Broker, conn: ConnId, claims: Claims, packet: Packet, p: Packet, f: Fanout, env: Env)
    ensures var b' := PublishedWith(b, conn, claims, packet, p, f, env);
            && b'.hub == b.hub && b'.gate == b.gate
            && b'.tables == if Publishable(claims, packet) && env.saveOk
                            then Tables(Saved(b.tables.messages, MessageFor(p)), f.offline) else b.tables
  {
  }

  lemma PublishInv(b: Broker, conn: ConnId, packet: Packet, env: Env)
    requires Inv(b) && IsBound(b, conn)
    ensures Inv(HandlePublish(b, conn, b.hub.conns[conn].clientId, b.hub.conns[conn].claims, packet, env))
  {
    var c := b.hub.conns[conn];
    var p := Stamped(packet, c.clientId, env.uuid, env.stamp);
    var f := FannedOut(Stored(b, p), p, env.matches, env.route);
    PublishFrame(b, conn, c.claims, packet, p, f, env);
    FanoutQueue(Fanout(b.tables.offline, Stored(b, p).trace, 0, false), b.hub.sessions, p, env.matches, env.route);
  }

  lemma DeliverInv(b: Broker, e: Event)
    requires Inv(b) && e.Deliver? && Enabled(b, e)
    ensures Inv(Step(b, e))
  {
    var b1 := CountedIn(b, e.conn, e.env.now);
    if IsAdmitted(b, e.conn, e.env) {
      match e.packet.kind {
        case Subscribe => SubscribedInv(b1, b1.hub.conns[e.conn].clientId, e.packet.subscriptions);
        case Publish => PublishInv(b1, e.conn, e.packet, e.env);
        case PubAck =>
        case Ping => EndInv(b1.(trace := Answer(b1.trace, e.conn, PONG, e.env.replyOk)), e.conn);
        case Disconnect => EndInv(b1, e.conn);
        case _ =>
      }
    }
  }

  lemma StepInv(b: Broker, e: Event)
    requires Inv(b)
    ensures Inv(Step(b, e))
  {
    if Enabled(b, e) {
      match e {
        case Accept(_, _, _, _, _) => AcceptInv(b, e);
        case Replay(_, _, _) =>
        case Deliver(_, _, _) => DeliverInv(b, e);
        case Lost(conn) => EndInv(b, conn);
      }
    }
  }

  /** The invariant holds in every reachable state. */
  lemma {:induction false} RunInv(b: Broker, events: seq<Event>)
    requires Init(b)
    ensures Inv(Run(b, events))
  {
    if events != [] {
      RunInv(b, events[..|events| - 1]);
      StepInv(Run(b, events[..|events| - 1]), events[|events| - 1]);
    }
  }
}
