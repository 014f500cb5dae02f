/** The broker as a state machine: the handlers of internal/broker/server/server.go, each of which
    runs as one atomic step on the stores they share.

    A step is an event; everything the code does not decide itself (what was received, what the
    token says, clocks, fresh ids, which sends and statements fail, the iteration order of a map)
    is a field of the event.  An event that cannot happen in a state leaves the state unchanged, so
    every sequence of events is a run. */
module StateMachine {
  import opened Types
  import opened Acl
  import opened Subscriptions
  import opened Sessions
  import opened Storage
  import opened Limiter
  import opened Routing

  /** Where the handler of an authenticated connection stands.  Ended covers both a handler that
      returned and one that never started serving because its CONNACK could not be sent. */
  datatype Phase = Replaying | Serving | Ended

  datatype Connection = Rejected | Bound(clientId: ClientId, claims: Claims, phase: Phase)

  /** Who is known and connected, in memory. */
  datatype Hub = Hub(sessions: SessionTable, registry: SubTable, conns: map<ConnId, Connection>)

  /** The database. */
  datatype Tables = Tables(messages: MessageTable, offline: OfflineTable)

  /** The rate limiter. */
  datatype Gate = Gate(limits: Limits, seen: WindowTable)

  datatype Broker = Broker(gate: Gate, hub: Hub, tables: Tables, trace: Trace)

  datatype Env = Env(
    now: int,
    stamp: int,
    uuid: PacketId,
    replyOk: bool,
    errorOk: bool,
    saveOk: bool,
    markOk: bool,
    ackOk: bool,
    matches: seq<Match>,
    route: RouteEnv)

  datatype Event =
    | Accept(conn: ConnId, hello: Option<Packet>, claims: Option<Claims>, replyOk: bool, errorOk: bool)
    | Replay(conn: ConnId, rows: Option<seq<OfflineRow>>, sent: nat)
    | Deliver(conn: ConnId, packet: Packet, env: Env)
    | Lost(conn: ConnId)

  /** Rows are stored under their own packet ids. */
  ghost predicate TablesOk(t: Tables) {
    && (forall id :: id in t.messages ==> t.messages[id].packetId == id)
    && (forall id :: id in t.offline ==> t.offline[id].packetId == id)
  }

  /** A new broker on a database that may hold rows from earlier runs. */
  ghost predicate Init(b: Broker) {
    && b.hub == Hub(map[], map[], map[]) && b.gate.seen == map[]
    && b.trace == Trace([], [], Metrics(0, 0, 0, 0, 0, 0, 0, 0, 0))
    && TablesOk(b.tables)
  }

  // ---- Replies ----

  function ErrorPacket(code: Code): Packet {
    BLANK.(kind := Error, code := code)
  }

  function ConnAckPacket(sessionPresent: bool): Packet {
    BLANK.(kind := ConnAck, sessionPresent := sessionPresent)
  }

  function AckPacket(kind: Kind, id: PacketId): Packet {
    BLANK.(kind := kind, packetId := id)
  }

  const PONG := BLANK.(kind := Pong)

  /** A send whose result the broker ignores or treats as an error. */
  function Put(t: Trace, conn: ConnId, packet: Packet, ok: bool): Trace {
    Logged(t, Sent(conn, packet, ok, Reply))
  }

  /** A send that counts as a packet out when it succeeds. */
  function Answer(t: Trace, conn: ConnId, packet: Packet, ok: bool): Trace {
    var t1 := Put(t, conn, packet, ok);
    if ok then t1.(metrics := t1.metrics.(packetsOut := t1.metrics.packetsOut + 1)) else t1
  }

  /** Answer, and on failure the ERROR packet that reports it. */
  function AnswerOrError(t: Trace, conn: ConnId, packet: Packet, code: Code, replyOk: bool, errorOk: bool): Trace {
    var t1 := Answer(t, conn, packet, replyOk);
    if replyOk then t1 else Put(t1, conn, ErrorPacket(code), errorOk)
  }

  // ---- CONNECT ----

  function ClientOf(hello: Packet, claims: Claims): ClientId {
    if hello.clientId == "" then claims.clientId else hello.clientId
  }

  /** The checks of authenticate, up to the point where the session is stored. */
  predicate Acceptable(hello: Option<Packet>, claims: Option<Claims>) {
    && hello.Some? && hello.value.kind.Connect? && claims.Some?
    && ClientOf(hello.value, claims.value) != ""
    && (claims.value.role == Device ==> claims.value.deviceId == ClientOf(hello.value, claims.value))
  }

  /** Reading OnlineCount into the gauge. */
  function Gauged(t: Trace, sessions: SessionTable): Trace {
    t.(metrics := t.metrics.(activeSessions := |OnlineIds(sessions)|))
  }

  /** authenticate, for a client that passes the checks. */
  function Authenticated(b: Broker, conn: ConnId, id: ClientId, claims: Claims, replyOk: bool): Broker {
    var sessions := Connected(b.hub.sessions, id, claims, conn);
    b.(hub := b.hub.(sessions := sessions),
       trace := Answer(Gauged(b.trace, sessions), conn, ConnAckPacket(id in b.hub.sessions), replyOk))
  }

  function WithConn(b: Broker, conn: ConnId, c: Connection): Broker {
    b.(hub := b.hub.(conns := b.hub.conns[conn := c]))
  }

  function AuthFailure(b: Broker, conn: ConnId, errorOk: bool): Broker {
    var t := b.trace.(metrics := b.trace.metrics.(authFailures := b.trace.metrics.authFailures + 1));
    b.(trace := Put(t, conn, ErrorPacket(AuthFailed), errorOk))
  }

  function AcceptConnection(b: Broker, conn: ConnId, hello: Option<Packet>, claims: Option<Claims>,
                            replyOk: bool, errorOk: bool): Broker {
    if !Acceptable(hello, claims) then AuthFailure(WithConn(b, conn, Rejected), conn, errorOk)
    else
      var id := ClientOf(hello.value, claims.value);
      var b1 := Authenticated(b, conn, id, claims.value, replyOk);
      if replyOk then WithConn(b1, conn, Bound(id, claims.value, Replaying))
      else AuthFailure(WithConn(b1, conn, Bound(id, claims.value, Ended)), conn, errorOk)
  }

  // ---- Offline replay ----

  /** The attempts of deliverOffline: the first `sent` succeed, the next one, if any, fails. */
  function ReplaySends(conn: ConnId, packets: seq<Packet>, sent: nat): seq<Sent> {
    var n := if sent < |packets| then sent + 1 else |packets|;
    seq(n, i requires 0 <= i < n => Sent(conn, packets[i], i < sent, Replayed))
  }

  function DeliverOffline(t: Trace, conn: ConnId, rows: Option<seq<OfflineRow>>, sent: nat): Trace {
    if rows.None? then t
    else t.(sends := t.sends + ReplaySends(conn, PublishAll(rows.value), sent),
            metrics := t.metrics.(packetsOut := t.metrics.packetsOut + sent))
  }

  predicate IsBound(b: Broker, conn: ConnId) {
    conn in b.hub.conns && b.hub.conns[conn].Bound?
  }

  function WithPhase(b: Broker, conn: ConnId, phase: Phase): Broker
    requires IsBound(b, conn)
  {
    WithConn(b, conn, b.hub.conns[conn].(phase := phase))
  }

  // ---- Packets ----

  /** The deferred clean-up when a handler returns. */
  function EndConnection(b: Broker, conn: ConnId): Broker
    requires IsBound(b, conn)
  {
    var sessions := Disconnected(b.hub.sessions, b.hub.conns[conn].clientId);
    var b1 := WithPhase(b, conn, Ended);
    b1.(hub := b1.hub.(sessions := sessions), trace := Gauged(b.trace, sessions))
  }

  predicate Subscribable(claims: Claims, packet: Packet) {
    packet.subscriptions != [] && forall s :: s in packet.subscriptions ==> CanSubscribe(claims, s.topic)
  }

  function Subscribed(b: Broker, clientId: ClientId, subs: seq<Subscription>): Broker {
    b.(hub := b.hub.(registry := Added(b.hub.registry, clientId, subs),
                     sessions := WithSubscriptions(b.hub.sessions, clientId, subs)),
       trace := b.trace.(metrics := b.trace.metrics.(subscriptions := b.trace.metrics.subscriptions + |subs|)))
  }

  function HandleSubscribe(b: Broker, conn: ConnId, clientId: ClientId, claims: Claims, packet: Packet,
                           replyOk: bool, errorOk: bool): Broker {
    if !Subscribable(claims, packet) then b.(trace := Put(b.trace, conn, ErrorPacket(SubscribeFailed), errorOk))
    else
      var b1 := Subscribed(b, clientId, packet.subscriptions);
      b1.(trace := AnswerOrError(b1.trace, conn, AckPacket(SubAck, packet.packetId), SubscribeFailed, replyOk, errorOk))
  }

  predicate Publishable(claims: Claims, packet: Packet) {
    packet.topic != "" && CanPublish(claims, packet.topic)
  }

  /** The packet as it is stored and routed: id and timestamp filled in, sender recorded. */
  function Stamped(packet: Packet, clientId: ClientId, uuid: PacketId, stamp: int): Packet {
    packet.(packetId := if packet.packetId == "" then uuid else packet.packetId,
            timestamp := if packet.timestamp == 0 then stamp else packet.timestamp,
            clientId := clientId)
  }

  function MessageFor(p: Packet): MessageRow {
    MessageRow(p.packetId, p.clientId, p.topic, p.qos, p.payload, p.timestamp, p.qos == 0)
  }

  function Stored(b: Broker, p: Packet): Broker {
    b.(tables := b.tables.(messages := Saved(b.tables.messages, MessageFor(p))),
       trace := b.trace.(metrics := b.trace.metrics.(publishes := b.trace.metrics.publishes + 1)))
  }

  function FannedOut(b: Broker, p: Packet, matches: seq<Match>, route: RouteEnv): Fanout {
    RouteAll(Fanout(b.tables.offline, b.trace, 0, false), b.hub.sessions, p, matches, route)
  }

  function AfterRoute(b: Broker, f: Fanout): Broker {
    b.(tables := b.tables.(offline := f.offline), trace := f.trace)
  }

  /** The end of handlePublish: PUBACK for a routed packet with positive QoS, ERROR on failure. */
  function Acknowledge(t: Trace, conn: ConnId, p: Packet, failed: bool, replyOk: bool, errorOk: bool): Trace {
    if failed then Put(t, conn, ErrorPacket(PublishFailed), errorOk)
    else if p.qos > 0 then AnswerOrError(t, conn, AckPacket(PubAck, p.packetId), PublishFailed, replyOk, errorOk)
    else t
  }

  /** The second half of handlePublish, given the outcome of the fan-out. */
  function RoutedAndAcknowledged(b: Broker, conn: ConnId, p: Packet, f: Fanout, replyOk: bool, errorOk: bool): Broker {
    AfterRoute(b, f).(trace := Acknowledge(f.trace, conn, p, f.failed, replyOk, errorOk))
  }

  /** handlePublish, given the stamped packet and the outcome of the fan-out. */
  function PublishedWith(b: Broker, conn: ConnId, claims: Claims, packet: Packet, p: Packet, f: Fanout,
                         env: Env): Broker {
    if !Publishable(claims, packet) || !env.saveOk
    then b.(trace := Put(b.trace, conn, ErrorPacket(PublishFailed), env.errorOk))
    else RoutedAndAcknowledged(Stored(b, p), conn, p, f, env.replyOk, env.errorOk)
  }

  function HandlePublish(b: Broker, conn: ConnId, clientId: ClientId, claims: Claims, packet: Packet,
                         env: Env): Broker {
    var p := Stamped(packet, clientId, env.uuid, env.stamp);
    PublishedWith(b, conn, claims, packet, p, FannedOut(Stored(b, p), p, env.matches, env.route), env)
  }

  function HandlePubAck(b: Broker, packet: Packet, markOk: bool, ackOk: bool): Broker {
    var id, t := packet.packetId, b.trace;
    var b1 := if markOk then b.(tables := b.tables.(messages := Marked(b.tables.messages, id))) else b;
    if ackOk then
      b1.(tables := b1.tables.(offline := Removed(b.tables.offline, id)),
          trace := t.(ops := t.ops + [Acked(id, id in b.tables.offline)],
                      metrics := t.metrics.(offlineQueue := t.metrics.offlineQueue - 1)))
    else b1
  }

  /** PING, DISCONNECT and packets a client should not send. */
  function HandleControl(b: Broker, conn: ConnId, kind: Kind, replyOk: bool, errorOk: bool): Broker
    requires IsBound(b, conn)
  {
    match kind
    case Ping =>
      var b1 := b.(trace := Answer(b.trace, conn, PONG, replyOk));
      if replyOk then b1 else EndConnection(b1, conn)
    case Disconnect => EndConnection(b, conn)
    case _ => b.(trace := Put(b.trace, conn, ErrorPacket(UnsupportedPacket), errorOk))
  }

  function Dispatch(b: Broker, conn: ConnId, packet: Packet, env: Env): Broker
    requires IsBound(b, conn)
  {
    var c := b.hub.conns[conn];
    match packet.kind
    case Subscribe => HandleSubscribe(b, conn, c.clientId, c.claims, packet, env.replyOk, env.errorOk)
    case Publish => HandlePublish(b, conn, c.clientId, c.claims, packet, env)
    case PubAck => HandlePubAck(b, packet, env.markOk, env.ackOk)
    case _ => HandleControl(b, conn, packet.kind, env.replyOk, env.errorOk)
  }

  /** The limiter's verdict on a packet received on `conn`. */
  predicate IsAdmitted(b: Broker, conn: ConnId, env: Env)
    requires IsBound(b, conn)
  {
    Admits(b.gate.seen, b.gate.limits, b.hub.conns[conn].clientId, env.now)
  }

  function Called(g: Gate, clientId: ClientId, now: int): Gate {
    g.(seen := AfterCall(g.seen, g.limits, clientId, now))
  }

  function CountedIn(b: Broker, conn: ConnId, now: int): Broker
    requires IsBound(b, conn)
  {
    b.(gate := Called(b.gate, b.hub.conns[conn].clientId, now),
       trace := b.trace.(metrics := b.trace.metrics.(packetsIn := b.trace.metrics.packetsIn + 1)))
  }

  function Refused(b: Broker, conn: ConnId, errorOk: bool): Broker {
    var t := b.trace.(metrics := b.trace.metrics.(rateLimited := b.trace.metrics.rateLimited + 1));
    b.(trace := Put(t, conn, ErrorPacket(RateLimited), errorOk))
  }

  function Receive(b: Broker, conn: ConnId, packet: Packet, env: Env): Broker
    requires IsBound(b, conn)
  {
    var b1 := CountedIn(b, conn, env.now);
    if IsAdmitted(b, conn, env) then Dispatch(b1, conn, packet, env) else Refused(b1, conn, env.errorOk)
  }

  // ---- Steps and runs ----

  predicate IsServing(b: Broker, conn: ConnId) {
    IsBound(b, conn) && b.hub.conns[conn].phase.Serving?
  }

  ghost predicate Enabled(b: Broker, e: Event) {
    match e
    case Accept(conn, _, _, _, _) => conn !in b.hub.conns
    case Replay(conn, rows, sent) =>
      && IsBound(b, conn) && b.hub.conns[conn].phase.Replaying?
      && (rows.Some? ==> IsListing(rows.value, b.tables.offline, b.hub.conns[conn].clientId) && sent <= |rows.value|)
    case Deliver(conn, packet, env) =>
      IsServing(b, conn) && (packet.kind.Publish? ==> IsMatchList(env.matches, b.hub.registry, packet.topic))
    case Lost(conn) => IsServing(b, conn)
  }

  ghost function Step(b: Broker, e: Event): Broker {
    if !Enabled(b, e) then b
    else
      match e
      case Accept(conn, hello, claims, replyOk, errorOk) => AcceptConnection(b, conn, hello, claims, replyOk, errorOk)
      case Replay(conn, rows, sent) =>
        WithPhase(b, conn, Serving).(trace := DeliverOffline(b.trace, conn, rows, sent))
      case Deliver(conn, packet, env) => Receive(b, conn, packet, env)
      case Lost(conn) => EndConnection(b, conn)
  }

  ghost function Run(b: Broker, events: seq<Event>): Broker {
    if events == [] then b else Step(Run(b, events[..|events| - 1]), events[|events| - 1])
  }

  lemma RunSnoc(b: Broker, events: seq<Event>, e: Event)
    ensures Run(b, events + [e]) == Step(Run(b, events), e)
  {
    assert (events + [e])[..|events|] == events;
  }

  /** Runs compose. */
  lemma {:induction false} RunConcat(b: Broker, s: seq<Event>, t: seq<Event>)
    ensures Run(b, s + t) == Run(Run(b, s), t)
  {
    if t == [] {
      assert s + t == s;
    } else {
      var front, last := t[..|t| - 1], t[|t| - 1];
      assert s + t == (s + front) + [last];
      RunConcat(b, s, front);
      RunSnoc(b, s + front, last);
    }
  }

  // ---- The steps by name ----

  /** The event stores a session for `clientId` on connection `conn`. */
  ghost predicate Binds(b: Broker, e: Event, clientId: ClientId, conn: ConnId) {
    && e.Accept? && Enabled(b, e) && e.conn == conn
    && Acceptable(e.hello, e.claims) && ClientOf(e.hello.value, e.claims.value) == clientId
  }

  /** The event ends a handler that serves `clientId`. */
  ghost predicate Ends(b: Broker, e: Event, clientId: ClientId) {
    && Enabled(b, e)
    && (|| e.Lost?
        || (&& e.Deliver? && IsAdmitted(b, e.conn, e.env)
            && (e.packet.kind.Disconnect? || (e.packet.kind.Ping? && !e.env.replyOk))))
    && b.hub.conns[e.conn].clientId == clientId
  }

  /** The event is a packet received from a client. */
  ghost predicate Receives(b: Broker, e: Event) {
    e.Deliver? && Enabled(b, e)
  }

  /** The event is a packet of the given kind that the limiter admitted. */
  ghost predicate Handles(b: Broker, e: Event, kind: Kind) {
    Receives(b, e) && IsAdmitted(b, e.conn, e.env) && e.packet.kind == kind
  }

  /** The event is a SUBSCRIBE of `clientId` that passed the access check. */
  ghost predicate Subscribes(b: Broker, e: Event, clientId: ClientId) {
    && Handles(b, e, Subscribe)
    && b.hub.conns[e.conn].clientId == clientId && Subscribable(b.hub.conns[e.conn].claims, e.packet)
  }

  /** The event is a PUBLISH that passed the access check and was saved. */
  ghost predicate Saves(b: Broker, e: Event) {
    Handles(b, e, Publish) && Publishable(b.hub.conns[e.conn].claims, e.packet) && e.env.saveOk
  }

  /** The packet a saving event stores and routes. */
  ghost function SavedPacket(b: Broker, e: Event): Packet
    requires Saves(b, e)
  {
    Stamped(e.packet, b.hub.conns[e.conn].clientId, e.env.uuid, e.env.stamp)
  }

  /** The event is an admitted PUBACK for `id` whose delete succeeds. */
  ghost predicate Removes(b: Broker, e: Event, id: PacketId) {
    Handles(b, e, PubAck) && e.packet.packetId == id && e.env.ackOk
  }

  /** The event is an admitted PUBACK for `id` whose update succeeds. */
  ghost predicate Marks(b: Broker, e: Event, id: PacketId) {
    Handles(b, e, PubAck) && e.packet.packetId == id && e.env.markOk
  }
}
