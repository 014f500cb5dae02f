/** What can be observed of the broker, step by step, said without the functions that compute it: who is
    let in, what is stored, sent and queued under which id and QoS, what is answered, and when a
    handler ends. */
module Observed {
  import opened Types
  import opened Topics
  import opened Acl
  import opened Upserts
  import opened Subscriptions
  import opened Sessions
  import opened Routing
  import opened StateMachine
  import opened Invariants
  import opened Steps
  import opened Durability
  import opened SessionTheorems

  // ---- Who is let in, and who may do what ----

  /** A connection puts client c online exactly when its first packet is a CONNECT with a token that
      parses, c is the id in that packet or, if that is empty, the id in the token, c is not empty, and a
      device is c itself. */
  lemma ConnectBindsExactly(b: Broker, e: Event, c: ClientId)
    requires Inv(b) && e.Accept? && Enabled(b, e)
    ensures OnlineOn(Step(b, e), c, e.conn) <==>
              && e.hello.Some? && e.hello.value.kind == Connect && e.claims.Some? && c != ""
              && c == (if e.hello.value.clientId != "" then e.hello.value.clientId else e.claims.value.clientId)
              && (e.claims.value.role == Device ==> e.claims.value.deviceId == c)
  {
    StepHub(b, e);
  }

  /** A packet of the given kind is received from a client with these claims, and admitted. */
  ghost predicate IsReceived(b: Broker, e: Event, kind: Kind, claims: Claims) {
    Handles(b, e, kind) && b.hub.conns[e.conn].claims == claims
  }

  /** A SUBSCRIBE is granted, all of it, exactly when it asks for something and, for anyone but an
      administrator, comes from a device and asks for its own command topic only; otherwise nothing of
      it is. */
  lemma SubscribeGrantedExactly(b: Broker, e: Event, claims: Claims)
    requires IsReceived(b, e, Subscribe, claims)
    ensures var c, subs := b.hub.conns[e.conn].clientId, e.packet.subscriptions;
            var granted := subs != [] && (claims.role == Admin
                                          || (claims.role == Device && forall s :: s in subs ==>
                                                s.topic == "device/" + claims.deviceId + "/command"));
            Step(b, e).hub.registry ==
              if granted then b.hub.registry[c := UpsertAll(SubsOf(b.hub.registry, c), subs)] else b.hub.registry
  {
    StepHub(b, e);
    if e.packet.subscriptions != [] {
      assert e.packet.subscriptions[0] in e.packet.subscriptions;
    }
  }

  /** A PUBLISH under a new id is stored exactly when it has a topic and comes from an administrator, or
      from a device whose id it lies below without ending in the level "command". */
  lemma PublishSavedExactly(b: Broker, e: Event, claims: Claims)
    requires IsReceived(b, e, Publish, claims) && e.env.saveOk
    ensures var id := if e.packet.packetId != "" then e.packet.packetId else e.env.uuid;
            id !in b.tables.messages ==>
              (id in Step(b, e).tables.messages <==>
                 && e.packet.topic != ""
                 && (|| claims.role == Admin
                     || (&& claims.role == Device && (exists rest :: IsBelow(e.packet.topic, claims.deviceId, rest))
                         && Split(e.packet.topic)[|Split(e.packet.topic)| - 1] != "command")))
  {
    StepTables(b, e);
    MayPublishExactly(claims, e.packet.topic);
  }

  /** A PUBLISH with an id is stored and acknowledged under it, one without under the new id. */
  lemma StoredUnder(b: Broker, e: Event, s: Sent)
    requires Saves(b, e)
    ensures var id := if e.packet.packetId != "" then e.packet.packetId else e.env.uuid;
            && id in Step(b, e).tables.messages
            && (s in NewSends(b, e) && s.packet.kind.PubAck? ==> s.conn == e.conn && s.packet.packetId == id)
  {
    StepTables(b, e);
    NewSendsExplained(b, e);
    if s in NewSends(b, e) && s.packet.kind.PubAck? && !s.via.Reply? {
      PublishKinds(b, e, s);
    }
  }

  // ---- What is routed ----

  /** Everything routed is a copy of the packet, under its id and from its sender, for a registered
      subscription that accepts the topic, on the connection its client is online on, at the lower of
      the QoS published and the QoS asked for. */
  lemma RoutedIsCopy(b: Broker, e: Event, s: Sent) returns (c: ClientId, sub: Subscription)
    requires s in NewSends(b, e) && s.via.Routed?
    ensures Saves(b, e) && IsSubscriber(b, c, sub, e.packet.topic) && OnlineOn(b, c, s.conn)
    ensures s.packet == e.packet.(packetId := if e.packet.packetId != "" then e.packet.packetId else e.env.uuid,
                                  timestamp := if e.packet.timestamp != 0 then e.packet.timestamp else e.env.stamp,
                                  clientId := b.hub.conns[e.conn].clientId,
                                  qos := if e.packet.qos <= sub.qos then e.packet.qos else sub.qos)
  {
    NewSendsExplained(b, e);
    var p := SavedPacket(b, e);
    var m :| m in e.env.matches && Attempts(b.hub.sessions, p, e.env.route)(m) == [s];
    assert Attempts(b.hub.sessions, p, e.env.route)(m)[0] == s;
    c := m.clientId;
    sub := MatchIsSubscriber(b, e, m);
  }

  /** Unless the queue reports an error, every registered subscription that accepts the topic and whose
      client is online gets its copy tried, and the environment alone decides whether that succeeds. */
  lemma EverySubscriberIsTried(b: Broker, e: Event, c: ClientId, sub: Subscription, k: ConnId)
    requires Saves(b, e) && e.env.route.queueDown == {}
    requires IsSubscriber(b, c, sub, e.packet.topic) && OnlineOn(b, c, k)
    ensures Sent(k, CopyFor(b, e, sub), Hit(c, sub) !in e.env.route.unsent, Routed) in NewSends(b, e)
  {
    SubscriberIsMatch(b, e, c, sub);
    RoutesAll(b, e);
    var p, sessions, route := SavedPacket(b, e), b.hub.sessions, e.env.route;
    var s := Sent(k, CopyFor(b, e, sub), Hit(c, sub) !in route.unsent, Routed);
    assert s in Attempts(sessions, p, route)(Hit(c, sub));
    FlatMapMember(e.env.matches, Attempts(sessions, p, route), s);
  }

  lemma RoutesAll(b: Broker, e: Event)
    requires Saves(b, e) && e.env.route.queueDown == {}
    ensures !FanoutBy(b, e).failed
    ensures FlatMap(e.env.matches, Attempts(b.hub.sessions, SavedPacket(b, e), e.env.route)) <= NewSends(b, e)
  {
    var p, sessions, route := SavedPacket(b, e), b.hub.sessions, e.env.route;
    var f := Fanout(b.tables.offline, Stored(CountedIn(b, e.conn, e.env.now), p).trace, 0, false);
    FanoutError(f, sessions, p, e.env.matches, route);
    RoutesAttempts(b, e);
  }

  // ---- What is queued ----

  /** A client needs the queue for a PUBLISH exactly when one of its subscriptions accepts the topic,
      both QoS values are positive, and the client is offline or the send to it fails. */
  lemma NeedingExactly(b: Broker, e: Event, c: ClientId)
    requires Inv(b) && Saves(b, e)
    ensures c in Needing(b, e) <==>
              exists sub :: && IsSubscriber(b, c, sub, e.packet.topic) && e.packet.qos > 0 && sub.qos > 0
                            && (!b.hub.sessions[c].online || Hit(c, sub) in e.env.route.unsent)
  {
    if c in Needing(b, e) {
      var m :| m in e.env.matches && NeedsQueue(b.hub.sessions, SavedPacket(b, e), e.env.route, m) && m.clientId == c;
      var sub := MatchIsSubscriber(b, e, m);
      assert IsSubscriber(b, c, sub, e.packet.topic);
    }
    if sub :| && IsSubscriber(b, c, sub, e.packet.topic) && e.packet.qos > 0 && sub.qos > 0
              && (!b.hub.sessions[c].online || Hit(c, sub) in e.env.route.unsent)
    {
      SubscriberIsMatch(b, e, c, sub);
      assert NeedsQueue(b.hub.sessions, SavedPacket(b, e), e.env.route, Hit(c, sub));
    }
  }

  /** Every row that appears in the queue carries the PUBLISH of the step, under its id, for a client with
      a subscription that accepts the topic, at the lower of the two QoS values, both of them positive. */
  lemma NewRowIsCopy(b: Broker, e: Event, id: PacketId) returns (sub: Subscription)
    requires Inv(b) && id !in b.tables.offline && id in Step(b, e).tables.offline
    ensures Saves(b, e) && IsSubscriber(b, Step(b, e).tables.offline[id].clientId, sub, e.packet.topic)
    ensures var row := Step(b, e).tables.offline[id];
            && id == row.packetId == (if e.packet.packetId != "" then e.packet.packetId else e.env.uuid)
            && row.topic == e.packet.topic
            && row.payload == (if e.packet.payload != "" then e.packet.payload else "{}")
            && row.qos == (if e.packet.qos <= sub.qos then e.packet.qos else sub.qos) && row.qos > 0
            && row.enqueuedAt == row.availableAt == e.env.route.clock(Hit(row.clientId, sub))
            && (!b.hub.sessions[row.clientId].online || Hit(row.clientId, sub) in e.env.route.unsent)
  {
    StepQueue(b, e);
    var p, q, q' := SavedPacket(b, e), b.tables.offline, Step(b, e).tables.offline;
    var m :| m in e.env.matches && NeedsQueue(b.hub.sessions, p, e.env.route, m)
             && q' == q[p.packetId := OwnedRow(b.hub.sessions, p, e.env.route, m)];
    sub := MatchIsSubscriber(b, e, m);
  }

  /** What is in force was asked for. */
  lemma InForceWasAsked(b: Broker, events: seq<Event>, c: ClientId, sub: Subscription)
    requires Init(b) && sub in SubsOf(Run(b, events).hub.registry, c)
    ensures sub in Requests(b, events, c)
  {
    var requests := Requests(b, events, c);
    RegistryIsFold(b, events, c);
    UpsertAllMeaning(requests);
    var list := UpsertAll([], requests);
    var i :| 0 <= i < |list| && list[i] == sub;
    assert sub == requests[FindLast(requests, sub.topic)];
  }

  /** A client that never asks for a positive QoS never gets a row: over every run, each row of it was
      left by an earlier broker, unchanged. */
  lemma {:induction false} QosZeroIsNeverQueued(b: Broker, events: seq<Event>, c: ClientId, id: PacketId)
    requires Init(b) && forall q :: q in Requests(b, events, c) ==> q.qos <= 0
    ensures var rows := Run(b, events).tables.offline;
            id in rows && rows[id].clientId == c ==> id in b.tables.offline && rows[id] == b.tables.offline[id]
  {
    if events != [] {
      var front, last := events[..|events| - 1], events[|events| - 1];
      QosZeroIsNeverQueued(b, front, c, id);
      RunInv(b, front);
      if id in Run(b, front).tables.offline {
        RowKept(Run(b, front), last, id);
      } else if id in Run(b, events).tables.offline {
        var sub := NewRowIsCopy(Run(b, front), last, id);
        if Run(b, events).tables.offline[id].clientId == c {
          InForceWasAsked(b, front, c, sub);
        }
      }
    }
  }

  // ---- Commands ----

  /** Commands get through: over every run, when an administrator's PUBLISH of positive QoS on
      device/d/command is admitted and neither the save nor the queue fails, it is answered with PUBACK,
      and if d is subscribed to its command topic at a positive QoS, it is sent on d's connection or the
      queue holds its id. */
  lemma CommandReachesDevice(b0: Broker, history: seq<Event>, e: Event, admin: Claims, d: string, sub: Subscription)
    requires Init(b0) && IsReceived(Run(b0, history), e, Publish, admin) && admin.role == Admin
    requires e.packet.topic == "device/" + d + "/command" && e.packet.qos > 0
    requires e.env.saveOk && e.env.route.queueDown == {}
    ensures exists s :: s in NewSends(Run(b0, history), e) && s.packet.kind.PubAck?
    ensures var b := Run(b0, history);
            d in b.hub.registry && sub in b.hub.registry[d] && sub.topic == e.packet.topic && sub.qos > 0 ==>
              || StoredId(e) in Step(b, e).tables.offline
              || exists k :: OnlineOn(b, d, k) && Sent(k, CopyFor(b, e, sub), true, Routed) in NewSends(b, e)
  {
    var b := Run(b0, history);
    RunInv(b0, history);
    MayPublishExactly(admin, e.packet.topic);
    assert Saves(b, e);
    RoutesAll(b, e);
    PubAckExactly(b, e);
    if d in b.hub.registry && sub in b.hub.registry[d] && sub.topic == e.packet.topic && sub.qos > 0 {
      AcceptsItself(e.packet.topic);
      AcknowledgedMeansDurable(b, e, d, sub);
      if StoredId(e) !in Step(b, e).tables.offline {
        assert OnlineOn(b, d, b.hub.sessions[d].conn.value);
      }
    }
  }

  // ---- What is answered ----

  /** A packet with nothing in it but an id, a session flag and a code. */
  function Bare(kind: Kind, id: PacketId, present: bool, code: Code): Packet {
    Packet(kind, id, "", "", 0, "", 0, [], present, code)
  }

  function ErrorTo(k: ConnId, code: Code, ok: bool): seq<Sent> {
    [Sent(k, Bare(Error, "", false, code), ok, Reply)]
  }

  /** The answer, followed by ERROR if it cannot be sent. */
  function AckTo(k: ConnId, answer: Packet, code: Code, replyOk: bool, errorOk: bool): seq<Sent> {
    [Sent(k, answer, replyOk, Reply)] + if replyOk then [] else ErrorTo(k, code, errorOk)
  }

  /** The answers to a packet: RATE_LIMITED if it is not admitted; SUBACK or SUBSCRIBE_FAILED; PONG;
      nothing to PUBACK and DISCONNECT; PUBLISH_FAILED, PUBACK or, at QoS 0, nothing; and
      UNSUPPORTED_PACKET to anything else. */
  ghost function AnswersTo(b: Broker, e: Event): seq<Sent>
    requires Receives(b, e)
  {
    var k, env := e.conn, e.env;
    if !IsAdmitted(b, k, env) then ErrorTo(k, RateLimited, env.errorOk)
    else
      match e.packet.kind
      case Subscribe =>
        if !Subscribes(b, e, b.hub.conns[k].clientId) then ErrorTo(k, SubscribeFailed, env.errorOk)
        else AckTo(k, Bare(SubAck, e.packet.packetId, false, NoCode), SubscribeFailed, env.replyOk, env.errorOk)
      case Publish =>
        if !Saves(b, e) || FanoutBy(b, e).failed then ErrorTo(k, PublishFailed, env.errorOk)
        else if e.packet.qos > 0
        then AckTo(k, Bare(PubAck, StoredId(e), false, NoCode), PublishFailed, env.replyOk, env.errorOk)
        else []
      case Ping => [Sent(k, Bare(Pong, "", false, NoCode), env.replyOk, Reply)]
      case PubAck => []
      case Disconnect => []
      case _ => ErrorTo(k, UnsupportedPacket, env.errorOk)
  }

  lemma RepliesAreAnswers(b: Broker, e: Event)
    requires Receives(b, e)
    ensures Replies(b, e) == AnswersTo(b, e)
  {
    if e.packet.kind.Publish? && IsAdmitted(b, e.conn, e.env) {
      PublishReplies(b, e);
    }
  }

  lemma PublishReplies(b: Broker, e: Event)
    requires Handles(b, e, Publish)
    ensures Replies(b, e) == AnswersTo(b, e)
  {
  }

  lemma OnlyRouted(b: Broker, e: Event) returns (routed: seq<Sent>)
    requires Receives(b, e)
    ensures BeforeReplies(b, e) == b.trace.sends + routed
    ensures forall s :: s in routed ==> s.via.Routed?
    ensures !Saves(b, e) ==> routed == []
  {
    if Saves(b, e) {
      var p, f := SavedPacket(b, e), FanoutBy(b, e);
      var start := Fanout(b.tables.offline, Stored(CountedIn(b, e.conn, e.env.now), p).trace, 0, false);
      FanoutOnlyAttempts(start, b.hub.sessions, p, e.env.matches, e.env.route);
      routed := f.trace.sends[|b.trace.sends|..];
      forall s | s in routed ensures s.via.Routed? {
        var i :| 0 <= i < |routed| && routed[i] == s;
        assert IsAttempt(f.trace.sends[|b.trace.sends| + i], b.hub.sessions, p, e.env.matches, e.env.route);
        var m :| m in e.env.matches && Attempts(b.hub.sessions, p, e.env.route)(m) == [s];
        assert Attempts(b.hub.sessions, p, e.env.route)(m)[0] == s;
      }
    } else {
      routed := [];
    }
  }

  /** Every packet gets these answers and no other, and only a saved PUBLISH sends anything besides. */
  lemma AnswersExactly(b: Broker, e: Event) returns (routed: seq<Sent>)
    requires Receives(b, e)
    ensures NewSends(b, e) == routed + AnswersTo(b, e)
    ensures forall s :: s in routed ==> s.via.Routed?
    ensures !Saves(b, e) ==> routed == []
  {
    StepSends(b, e);
    RepliesAreAnswers(b, e);
    routed := OnlyRouted(b, e);
    ConcatAssoc(b.trace.sends, routed, AnswersTo(b, e));
    ConcatSuffix(b.trace.sends, routed + AnswersTo(b, e));
  }

  /** The answers to a new connection: CONNACK, with the session flag, or AUTH_FAILED, also after a
      CONNACK that cannot be sent. */
  lemma ConnectAnswersExactly(b: Broker, e: Event)
    requires Inv(b) && e.Accept? && Enabled(b, e)
    ensures NewSends(b, e) ==
              if exists c :: OnlineOn(Step(b, e), c, e.conn)
              then AckTo(e.conn, Bare(ConnAck, "", ClientOf(e.hello.value, e.claims.value) in b.hub.sessions, NoCode),
                         AuthFailed, e.replyOk, e.errorOk)
              else ErrorTo(e.conn, AuthFailed, e.errorOk)
  {
    StepSends(b, e);
    StepHub(b, e);
    ConcatSuffix(b.trace.sends, Replies(b, e));
    if Acceptable(e.hello, e.claims) {
      assert OnlineOn(Step(b, e), ClientOf(e.hello.value, e.claims.value), e.conn);
    }
  }

  // ---- When a handler ends ----

  /** A serving handler ends exactly when its connection is lost, or it admits DISCONNECT, or it admits
      PING and cannot answer; then the session of its client goes offline. */
  lemma HandlerEndsExactly(b: Broker, e: Event, k: ConnId)
    requires Inv(b) && IsServing(b, k)
    ensures IsServing(Step(b, e), k) <==>
              !(&& e.conn == k
                && (|| e.Lost?
                    || (&& Receives(b, e) && IsAdmitted(b, k, e.env)
                        && (e.packet.kind == Disconnect || (e.packet.kind == Ping && !e.env.replyOk)))))
    ensures var c := b.hub.conns[k].clientId;
            !IsServing(Step(b, e), k) ==>
              !Step(b, e).hub.sessions[c].online && Step(b, e).hub.sessions[c].conn == None
  {
    StepHub(b, e);
  }
}
