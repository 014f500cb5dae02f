/** What one step does to the tables and to the log of sends, by the name of the step. */
module Steps {
  import opened Types
  import opened Topics
  import opened Subscriptions
  import opened Sessions
  import opened Storage
  import opened Routing
  import opened StateMachine
  import opened Invariants

  /** The outcome of the fan-out of a saving event. */
  ghost function FanoutBy(b: Broker, e: Event): Fanout
    requires Saves(b, e)
  {
    var p := SavedPacket(b, e);
    FannedOut(Stored(CountedIn(b, e.conn, e.env.now), p), p, e.env.matches, e.env.route)
  }

  // ---- What a PUBLISH becomes, field by field ----

  /** The id a PUBLISH is stored, routed and acknowledged under: its own, or a new one if it has none. */
  function StoredId(e: Event): PacketId
    requires e.Deliver?
  {
    if e.packet.packetId != "" then e.packet.packetId else e.env.uuid
  }

  function StoredTime(e: Event): int
    requires e.Deliver?
  {
    if e.packet.timestamp != 0 then e.packet.timestamp else e.env.stamp
  }

  /** The lower of the QoS published and the QoS asked for. */
  function GrantedQos(e: Event, sub: Subscription): int
    requires e.Deliver?
  {
    if e.packet.qos <= sub.qos then e.packet.qos else sub.qos
  }

  /** The copy of an accepted PUBLISH for a subscription. */
  ghost function CopyFor(b: Broker, e: Event, sub: Subscription): Packet
    requires e.Deliver? && IsBound(b, e.conn)
  {
    e.packet.(packetId := StoredId(e), timestamp := StoredTime(e), clientId := b.hub.conns[e.conn].clientId,
              qos := GrantedQos(e, sub))
  }

  /** Client c has registered `sub`, and its filter accepts the topic. */
  ghost predicate IsSubscriber(b: Broker, c: ClientId, sub: Subscription, topic: string) {
    c in b.hub.registry && sub in b.hub.registry[c] && Matches(sub.topic, topic)
  }

  lemma MatchIsSubscriber(b: Broker, e: Event, m: Match) returns (sub: Subscription)
    requires Saves(b, e) && m in e.env.matches
    ensures m == Hit(m.clientId, sub) && IsSubscriber(b, m.clientId, sub, e.packet.topic)
    ensures Outbound(SavedPacket(b, e), m) == CopyFor(b, e, sub)
  {
    MatchMeaning(e.env.matches, b.hub.registry, e.packet.topic, m);
    sub := Subscription(m.filter, m.qos);
  }

  lemma SubscriberIsMatch(b: Broker, e: Event, c: ClientId, sub: Subscription)
    requires Saves(b, e) && IsSubscriber(b, c, sub, e.packet.topic)
    ensures Hit(c, sub) in e.env.matches
    ensures Outbound(SavedPacket(b, e), Hit(c, sub)) == CopyFor(b, e, sub)
  {
    MatchMeaning(e.env.matches, b.hub.registry, e.packet.topic, Hit(c, sub));
  }

  lemma SaveTables(b: Broker, e: Event)
    requires Saves(b, e)
    ensures Step(b, e).tables ==
            Tables(Saved(b.tables.messages, MessageFor(SavedPacket(b, e))), FanoutBy(b, e).offline)
  {
    var b1, c := CountedIn(b, e.conn, e.env.now), b.hub.conns[e.conn];
    PublishFrame(b1, e.conn, c.claims, e.packet, SavedPacket(b, e), FanoutBy(b, e), e.env);
  }

  /** The tables change in accepted PUBLISH steps and in admitted PUBACK steps only. */
  lemma StepTables(b: Broker, e: Event)
    ensures var t, t' := b.tables, Step(b, e).tables;
            t' == if Saves(b, e) then
                    Tables(Saved(t.messages, MessageFor(SavedPacket(b, e))), FanoutBy(b, e).offline)
                  else if Handles(b, e, PubAck) then
                    Tables(if e.env.markOk then Marked(t.messages, e.packet.packetId) else t.messages,
                           if e.env.ackOk then Removed(t.offline, e.packet.packetId) else t.offline)
                  else t
  {
    if Saves(b, e) {
      SaveTables(b, e);
    } else if Handles(b, e, Publish) {
      var b1, c := CountedIn(b, e.conn, e.env.now), b.hub.conns[e.conn];
      assert Step(b, e) == HandlePublish(b1, e.conn, c.clientId, c.claims, e.packet, e.env);
    }
  }

  /** The log of queue operations grows in the same two kinds of steps. */
  lemma StepOps(b: Broker, e: Event)
    ensures var ops, id := b.trace.ops, if e.Deliver? then e.packet.packetId else "";
            Step(b, e).trace.ops ==
              if Saves(b, e) then FanoutBy(b, e).trace.ops
              else if Removes(b, e, id) then ops + [Acked(id, id in b.tables.offline)]
              else ops
  {
    if Saves(b, e) {
      SaveTrace(b, e);
    } else if Handles(b, e, Publish) {
      var b1, c := CountedIn(b, e.conn, e.env.now), b.hub.conns[e.conn];
      assert Step(b, e) == HandlePublish(b1, e.conn, c.clientId, c.claims, e.packet, e.env);
    }
  }

  /** The queue after a step: a row disappears by PUBACK, or at most one row appears, for a packet
      just published whose id was free, owned by a match that needed the queue. */
  lemma StepQueue(b: Broker, e: Event)
    ensures var q, q' := b.tables.offline, Step(b, e).tables.offline;
            || q' == q
            || (Removes(b, e, e.packet.packetId) && q' == Removed(q, e.packet.packetId))
            || (&& Saves(b, e) && SavedPacket(b, e).packetId !in q
                && exists m :: m in e.env.matches && NeedsQueue(b.hub.sessions, SavedPacket(b, e), e.env.route, m)
                     && q' == q[SavedPacket(b, e).packetId :=
                                  OwnedRow(b.hub.sessions, SavedPacket(b, e), e.env.route, m)])
  {
    StepTables(b, e);
    if Saves(b, e) {
      var p := SavedPacket(b, e);
      FanoutQueue(Fanout(b.tables.offline, Stored(CountedIn(b, e.conn, e.env.now), p).trace, 0, false),
                  b.hub.sessions, p, e.env.matches, e.env.route);
    }
  }

  /** The event is a PUBLISH that handlePublish answers with PUBACK. */
  ghost predicate Acknowledges(b: Broker, e: Event) {
    Saves(b, e) && SavedPacket(b, e).qos > 0 && !FanoutBy(b, e).failed
  }

  /** Why a send happens in a step: replies go to the connection the step is about, replays carry
      rows of the listing, and everything routed is the attempt of a match of the saved packet. */
  ghost predicate Explains(b: Broker, e: Event, s: Sent) {
    match s.via
    case Reply =>
      && s.conn == e.conn && !s.packet.kind.Publish?
      && (s.packet.kind.PubAck? ==> Acknowledges(b, e) && s.packet.packetId == SavedPacket(b, e).packetId)
      && (s.packet.kind.SubAck? ==>
            Handles(b, e, Subscribe) && Subscribes(b, e, b.hub.conns[e.conn].clientId)
            && s.packet.packetId == e.packet.packetId)
      && (s.packet.kind.ConnAck? ==>
            && e.Accept? && Acceptable(e.hello, e.claims)
            && s.packet.sessionPresent == (ClientOf(e.hello.value, e.claims.value) in b.hub.sessions))
    case Replayed =>
      e.Replay? && Enabled(b, e) && e.rows.Some? && s.conn == e.conn && s.packet in PublishAll(e.rows.value)
    case Routed =>
      Saves(b, e) && IsAttempt(s, b.hub.sessions, SavedPacket(b, e), e.env.matches, e.env.route)
  }

  /** `after` extends `before` by sends that event `e` explains. */
  ghost predicate Extends(b: Broker, e: Event, before: seq<Sent>, after: seq<Sent>) {
    before <= after && forall i :: |before| <= i < |after| ==> Explains(b, e, after[i])
  }

  function OneReply(conn: ConnId, packet: Packet, ok: bool): seq<Sent> {
    [Sent(conn, packet, ok, Reply)]
  }

  function ReplyThenError(conn: ConnId, packet: Packet, code: Code, replyOk: bool, errorOk: bool): seq<Sent> {
    OneReply(conn, packet, replyOk) + if replyOk then [] else OneReply(conn, ErrorPacket(code), errorOk)
  }

  /** The replies to an admitted packet. */
  ghost function RepliesTo(b: Broker, e: Event): seq<Sent>
    requires e.Deliver? && Enabled(b, e)
  {
    var k, env, claims := e.conn, e.env, b.hub.conns[e.conn].claims;
    match e.packet.kind
    case Subscribe =>
      if !Subscribable(claims, e.packet) then OneReply(k, ErrorPacket(SubscribeFailed), env.errorOk)
      else ReplyThenError(k, AckPacket(SubAck, e.packet.packetId), SubscribeFailed, env.replyOk, env.errorOk)
    case Publish =>
      if !Saves(b, e) || FanoutBy(b, e).failed then OneReply(k, ErrorPacket(PublishFailed), env.errorOk)
      else if SavedPacket(b, e).qos > 0 then
        ReplyThenError(k, AckPacket(PubAck, SavedPacket(b, e).packetId), PublishFailed, env.replyOk, env.errorOk)
      else []
    case PubAck => []
    case Ping => OneReply(k, PONG, env.replyOk)
    case Disconnect => []
    case _ => OneReply(k, ErrorPacket(UnsupportedPacket), env.errorOk)
  }

  /** The replies of a step. */
  ghost function Replies(b: Broker, e: Event): seq<Sent> {
    if !Enabled(b, e) then []
    else
      match e
      case Accept(conn, hello, claims, replyOk, errorOk) =>
        if !Acceptable(hello, claims) then OneReply(conn, ErrorPacket(AuthFailed), errorOk)
        else ReplyThenError(conn, ConnAckPacket(ClientOf(hello.value, claims.value) in b.hub.sessions), AuthFailed,
                            replyOk, errorOk)
      case Deliver(conn, packet, env) =>
        if IsAdmitted(b, conn, env) then RepliesTo(b, e) else OneReply(conn, ErrorPacket(RateLimited), env.errorOk)
      case _ => []
  }

  /** The sends after the routing or replaying part of a step. */
  ghost function BeforeReplies(b: Broker, e: Event): seq<Sent> {
    if Saves(b, e) then FanoutBy(b, e).trace.sends
    else if e.Replay? && Enabled(b, e) && e.rows.Some? then
      b.trace.sends + ReplaySends(e.conn, PublishAll(e.rows.value), e.sent)
    else b.trace.sends
  }

  lemma AnswerOrErrorSends(t: Trace, conn: ConnId, packet: Packet, code: Code, replyOk: bool, errorOk: bool)
    ensures AnswerOrError(t, conn, packet, code, replyOk, errorOk).sends ==
            t.sends + ReplyThenError(conn, packet, code, replyOk, errorOk)
  {
  }

  lemma SaveTrace(b: Broker, e: Event)
    requires Saves(b, e)
    ensures var f := FanoutBy(b, e);
            Step(b, e).trace == Acknowledge(f.trace, e.conn, SavedPacket(b, e), f.failed, e.env.replyOk, e.env.errorOk)
  {
  }

  lemma PublishSends(b: Broker, e: Event)
    requires Handles(b, e, Publish)
    ensures Step(b, e).trace.sends == BeforeReplies(b, e) + Replies(b, e)
  {
    if Saves(b, e) {
      var p, f := SavedPacket(b, e), FanoutBy(b, e);
      SaveTrace(b, e);
      AnswerOrErrorSends(f.trace, e.conn, AckPacket(PubAck, p.packetId), PublishFailed, e.env.replyOk, e.env.errorOk);
    } else {
      var b1, c := CountedIn(b, e.conn, e.env.now), b.hub.conns[e.conn];
      assert Step(b, e) == HandlePublish(b1, e.conn, c.clientId, c.claims, e.packet, e.env);
    }
  }

  lemma AcceptSends(b: Broker, e: Event)
    requires e.Accept? && Enabled(b, e)
    ensures Step(b, e).trace.sends == b.trace.sends + Replies(b, e)
  {
    if Acceptable(e.hello, e.claims) {
      AnswerOrErrorSends(b.trace, e.conn, ConnAckPacket(ClientOf(e.hello.value, e.claims.value) in b.hub.sessions),
                         AuthFailed, e.replyOk, e.errorOk);
    }
  }

  lemma DeliverSends(b: Broker, e: Event)
    requires e.Deliver? && Enabled(b, e)
    ensures Step(b, e).trace.sends == BeforeReplies(b, e) + Replies(b, e)
  {
    if Handles(b, e, Publish) {
      PublishSends(b, e);
    } else if Handles(b, e, Subscribe) {
      AnswerOrErrorSends(Subscribed(CountedIn(b, e.conn, e.env.now), b.hub.conns[e.conn].clientId,
                                    e.packet.subscriptions).trace,
                         e.conn, AckPacket(SubAck, e.packet.packetId), SubscribeFailed, e.env.replyOk, e.env.errorOk);
    }
  }

  /** The log of sends after a step: what was there, what was routed or replayed, the replies. */
  lemma StepSends(b: Broker, e: Event)
    ensures Step(b, e).trace.sends == BeforeReplies(b, e) + Replies(b, e)
  {
    if Enabled(b, e) {
      match e {
        case Accept(_, _, _, _, _) => AcceptSends(b, e);
        case Deliver(_, _, _) => DeliverSends(b, e);
        case _ =>
      }
    }
  }

  lemma PublishRepliesExplained(b: Broker, e: Event)
    requires Handles(b, e, Publish)
    ensures forall s :: s in RepliesTo(b, e) ==> Explains(b, e, s)
  {
  }

  lemma OtherRepliesExplained(b: Broker, e: Event)
    requires Receives(b, e) && IsAdmitted(b, e.conn, e.env) && !e.packet.kind.Publish?
    ensures forall s :: s in RepliesTo(b, e) ==> Explains(b, e, s)
  {
  }

  lemma RepliesExplained(b: Broker, e: Event)
    ensures forall s :: s in Replies(b, e) ==> Explains(b, e, s)
  {
    if Receives(b, e) && IsAdmitted(b, e.conn, e.env) {
      if e.packet.kind.Publish? {
        PublishRepliesExplained(b, e);
      } else {
        OtherRepliesExplained(b, e);
      }
      assert Replies(b, e) == RepliesTo(b, e);
    }
  }

  lemma RoutedExplained(b: Broker, e: Event)
    ensures Extends(b, e, b.trace.sends, BeforeReplies(b, e))
  {
    if Saves(b, e) {
      var p, f := SavedPacket(b, e), FanoutBy(b, e);
      var start := Fanout(b.tables.offline, Stored(CountedIn(b, e.conn, e.env.now), p).trace, 0, false);
      FanoutOnlyAttempts(start, b.hub.sessions, p, e.env.matches, e.env.route);
      forall i | |b.trace.sends| <= i < |f.trace.sends| ensures Explains(b, e, f.trace.sends[i]) {
        assert IsAttempt(f.trace.sends[i], b.hub.sessions, p, e.env.matches, e.env.route);
        var m :| m in e.env.matches && Attempts(b.hub.sessions, p, e.env.route)(m) == [f.trace.sends[i]];
        assert Attempts(b.hub.sessions, p, e.env.route)(m)[0].via == Routed;
      }
    } else if e.Replay? && Enabled(b, e) && e.rows.Some? {
      var packets := PublishAll(e.rows.value);
      var more := ReplaySends(e.conn, packets, e.sent);
      forall i | 0 <= i < |more| ensures Explains(b, e, more[i]) {
        assert more[i].packet == packets[i];
      }
    }
  }

  /** Every send of every step is explained. */
  lemma SendsExplained(b: Broker, e: Event)
    ensures Extends(b, e, b.trace.sends, Step(b, e).trace.sends)
  {
    StepSends(b, e);
    RoutedExplained(b, e);
    RepliesExplained(b, e);
    var mid, more := BeforeReplies(b, e), Replies(b, e);
    forall i | |b.trace.sends| <= i < |mid + more| ensures Explains(b, e, (mid + more)[i]) {
      if i >= |mid| {
        assert (mid + more)[i] in more;
      }
    }
  }

  // ---- Sessions, registry and connections ----

  ghost function HubAfterDeliver(b: Broker, e: Event): Hub
    requires e.Deliver? && Enabled(b, e)
  {
    var h, c := b.hub, b.hub.conns[e.conn];
    if Ends(b, e, c.clientId) then
      Hub(Disconnected(h.sessions, c.clientId), h.registry, h.conns[e.conn := c.(phase := Ended)])
    else if Subscribes(b, e, c.clientId) then
      Hub(WithSubscriptions(h.sessions, c.clientId, e.packet.subscriptions),
          Added(h.registry, c.clientId, e.packet.subscriptions), h.conns)
    else h
  }

  /** The hub after a step, by the name of the step. */
  ghost function HubAfter(b: Broker, e: Event): Hub {
    var h := b.hub;
    if !Enabled(b, e) then h
    else
      match e
      case Accept(conn, hello, claims, replyOk, errorOk) =>
        if !Acceptable(hello, claims) then h.(conns := h.conns[conn := Rejected])
        else
          var id := ClientOf(hello.value, claims.value);
          Hub(Connected(h.sessions, id, claims.value, conn), h.registry,
              h.conns[conn := Bound(id, claims.value, if replyOk then Replaying else Ended)])
      case Replay(conn, _, _) => h.(conns := h.conns[conn := h.conns[conn].(phase := Serving)])
      case Lost(conn) =>
        Hub(Disconnected(h.sessions, h.conns[conn].clientId), h.registry,
            h.conns[conn := h.conns[conn].(phase := Ended)])
      case Deliver(_, _, _) => HubAfterDeliver(b, e)
  }

  lemma ControlHub(b: Broker, conn: ConnId, kind: Kind, replyOk: bool, errorOk: bool)
    requires IsBound(b, conn)
    ensures HandleControl(b, conn, kind, replyOk, errorOk).hub ==
            if kind.Disconnect? || (kind.Ping? && !replyOk) then EndConnection(b, conn).hub else b.hub
  {
  }

  lemma SubscribeHub(b: Broker, conn: ConnId, clientId: ClientId, claims: Claims, packet: Packet,
                     replyOk: bool, errorOk: bool)
    ensures HandleSubscribe(b, conn, clientId, claims, packet, replyOk, errorOk).hub ==
            if Subscribable(claims, packet) then Subscribed(b, clientId, packet.subscriptions).hub else b.hub
  {
  }

  lemma DeliverHub(b: Broker, e: Event)
    requires e.Deliver? && Enabled(b, e)
    ensures Step(b, e).hub == HubAfterDeliver(b, e)
  {
    var b1, c := CountedIn(b, e.conn, e.env.now), b.hub.conns[e.conn];
    if IsAdmitted(b, e.conn, e.env) {
      if e.packet.kind.Publish? {
        var p := Stamped(e.packet, c.clientId, e.env.uuid, e.env.stamp);
        PublishFrame(b1, e.conn, c.claims, e.packet, p, FannedOut(Stored(b1, p), p, e.env.matches, e.env.route), e.env);
      } else if e.packet.kind.Subscribe? {
        SubscribeHub(b1, e.conn, c.clientId, c.claims, e.packet, e.env.replyOk, e.env.errorOk);
      } else if !e.packet.kind.PubAck? {
        ControlHub(b1, e.conn, e.packet.kind, e.env.replyOk, e.env.errorOk);
      }
    }
  }

  lemma StepHub(b: Broker, e: Event)
    ensures Step(b, e).hub == HubAfter(b, e)
  {
    if Enabled(b, e) && e.Deliver? {
      DeliverHub(b, e);
    }
  }

  lemma DispatchGate(b: Broker, conn: ConnId, packet: Packet, env: Env)
    requires IsBound(b, conn)
    ensures Dispatch(b, conn, packet, env).gate == b.gate
  {
    if packet.kind.Publish? {
      var c := b.hub.conns[conn];
      var p := Stamped(packet, c.clientId, env.uuid, env.stamp);
      PublishFrame(b, conn, c.claims, packet, p, FannedOut(Stored(b, p), p, env.matches, env.route), env);
    }
  }

  /** Every packet received is one call to the limiter, and nothing else is. */
  lemma StepGate(b: Broker, e: Event)
    ensures Step(b, e).gate == if e.Deliver? && Enabled(b, e)
                               then Called(b.gate, b.hub.conns[e.conn].clientId, e.env.now) else b.gate
  {
    if e.Deliver? && Enabled(b, e) {
      DispatchGate(CountedIn(b, e.conn, e.env.now), e.conn, e.packet, e.env);
    }
  }
}
