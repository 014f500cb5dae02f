/** Runs that show what the theorems rule out or make exact: each is reachable from every initial state
    with an empty queue. */
module Witnesses {
  import opened Types
  import opened Topics
  import opened Upserts
  import opened Subscriptions
  import opened Sessions
  import opened Storage
  import opened Routing
  import opened StateMachine
  import opened Invariants
  import opened Steps
  import opened Durability
  import Bridge
  import Provenance

  const WANTED := Subscription("t", 1)

  const QUIET := RouteEnv({}, {}, (m: Match) => 0)

  function Hello(c: ClientId): Option<Packet> {
    Some(BLANK.(kind := Connect, clientId := c))
  }

  function AdminClaims(c: ClientId): Claims {
    Claims(c, "", Admin)
  }

  function Smooth(now: int, matches: seq<Match>): Env {
    Env(now, 0, "id", true, true, true, true, true, matches, QUIET)
  }

  function SubscribeEvent(k: ConnId, now: int): Event {
    Deliver(k, BLANK.(kind := Subscribe, subscriptions := [WANTED]), Smooth(now, []))
  }

  function PublishEvent(k: ConnId, id: PacketId, payload: string, matches: seq<Match>): Event {
    Deliver(k, BLANK.(kind := Publish, packetId := id, topic := "t", qos := 1, payload := payload), Smooth(0, matches))
  }

  function PubAckEvent(k: ConnId, id: PacketId): Event {
    Deliver(k, BLANK.(kind := PubAck, packetId := id), Smooth(0, []))
  }

  lemma TwoSteps(b: Broker, e1: Event, e2: Event)
    ensures Run(b, [e1, e2]) == Step(Step(b, e1), e2)
  {
    assert [e1, e2] == ([] + [e1]) + [e2];
    RunSnoc(b, [], e1);
    RunSnoc(b, [] + [e1], e2);
  }

  lemma Effect(b: Broker, e: Event)
    requires e.Accept? || e.Replay? || e.Lost?
    ensures Step(b, e).hub == HubAfter(b, e) && Step(b, e).gate == b.gate && Step(b, e).tables == b.tables
  {
    StepHub(b, e);
    StepGate(b, e);
    StepTables(b, e);
  }

  /** An administrator connects on k and is served. */
  lemma Joins(b: Broker, c: ClientId, k: ConnId) returns (events: seq<Event>)
    requires c != "" && c !in b.hub.sessions && k !in b.hub.conns
    ensures var b' := Run(b, events);
            && b'.gate == b.gate && b'.tables == b.tables
            && b'.hub == Hub(b.hub.sessions[c := Session(c, AdminClaims(c), Some(k), true, [])], b.hub.registry,
                             b.hub.conns[k := Bound(c, AdminClaims(c), Serving)])
  {
    var e1, e2 := Accept(k, Hello(c), Some(AdminClaims(c)), true, true), Replay(k, None, 0);
    events := [e1, e2];
    TwoSteps(b, e1, e2);
    Effect(b, e1);
    Effect(Step(b, e1), e2);
  }

  lemma SubscribeEffect(b: Broker, e: Event, c: ClientId)
    requires Subscribes(b, e, c)
    ensures Step(b, e).tables == b.tables && Step(b, e).gate == Called(b.gate, c, e.env.now)
    ensures Step(b, e).hub == Hub(WithSubscriptions(b.hub.sessions, c, e.packet.subscriptions),
                                  Added(b.hub.registry, c, e.packet.subscriptions), b.hub.conns)
  {
    StepHub(b, e);
    StepGate(b, e);
    StepTables(b, e);
  }

  /** A served administrator subscribes and is cut off. */
  lemma SubscribesAndLeaves(b: Broker, c: ClientId, k: ConnId) returns (events: seq<Event>)
    requires k in b.hub.conns && b.hub.conns[k] == Bound(c, AdminClaims(c), Serving)
    requires c !in b.gate.seen && c !in b.hub.registry
    requires c in b.hub.sessions && b.hub.sessions[c] == Session(c, AdminClaims(c), Some(k), true, [])
    ensures var b' := Run(b, events);
            && b'.gate.seen.Keys == b.gate.seen.Keys + {c} && b'.tables == b.tables
            && b'.hub == Hub(b.hub.sessions[c := Away(c)], b.hub.registry[c := [WANTED]],
                             b.hub.conns[k := Bound(c, AdminClaims(c), Ended)])
  {
    var e1, e2 := SubscribeEvent(k, 0), Lost(k);
    events := [e1, e2];
    TwoSteps(b, e1, e2);
    SubscribeEffect(b, e1, c);
    assert UpsertAll([], [WANTED]) == [WANTED];
    Effect(Step(b, e1), e2);
  }

  function Away(c: ClientId): Session {
    Session(c, AdminClaims(c), None, false, [WANTED])
  }

  /** A new client connects on k, subscribes and is cut off. */
  lemma ComesAndGoes(b: Broker, c: ClientId, k: ConnId) returns (events: seq<Event>)
    requires c != "" && c !in b.hub.sessions && c !in b.hub.registry && c !in b.gate.seen && k !in b.hub.conns
    ensures var b' := Run(b, events);
            && b'.gate.seen.Keys == b.gate.seen.Keys + {c} && b'.tables == b.tables
            && b'.hub == Hub(b.hub.sessions[c := Away(c)], b.hub.registry[c := [WANTED]],
                             b.hub.conns[k := Bound(c, AdminClaims(c), Ended)])
  {
    var before := Joins(b, c, k);
    var b1 := Run(b, before);
    var after := SubscribesAndLeaves(b1, c, k);
    events := before + after;
    RunConcat(b, before, after);
  }

  // ---- A publication that offline subscribers need queued ----

  /** An administrator is served on k and has not been counted by the limiter. */
  ghost predicate IsFresh(b: Broker, k: ConnId, c: ClientId) {
    k in b.hub.conns && b.hub.conns[k] == Bound(c, AdminClaims(c), Serving) && c !in b.gate.seen
  }

  ghost predicate IsAway(b: Broker, a: ClientId) {
    && a in b.hub.sessions && b.hub.sessions[a] == Away(a)
    && a in b.hub.registry && b.hub.registry[a] == [WANTED]
  }

  lemma IsSaved(b: Broker, k: ConnId, c: ClientId, id: PacketId, payload: string, matches: seq<Match>)
    requires id != "" && IsFresh(b, k, c) && IsMatchList(matches, b.hub.registry, "t")
    ensures var e := PublishEvent(k, id, payload, matches);
            && Saves(b, e)
            && var p := SavedPacket(b, e);
               p.packetId == id && p.topic == "t" && p.qos == 1 && p.payload == payload
  {
  }

  lemma IsAcknowledged(b: Broker, k: ConnId, c: ClientId, id: PacketId, payload: string, matches: seq<Match>)
    requires id != "" && IsFresh(b, k, c) && IsMatchList(matches, b.hub.registry, "t")
    ensures Acknowledges(b, PublishEvent(k, id, payload, matches))
  {
    var e := PublishEvent(k, id, payload, matches);
    IsSaved(b, k, c, id, payload, matches);
    var p := SavedPacket(b, e);
    FanoutError(Fanout(b.tables.offline, Stored(CountedIn(b, e.conn, e.env.now), p).trace, 0, false),
                b.hub.sessions, p, matches, QUIET);
  }

  lemma IsMatched(b: Broker, a: ClientId, matches: seq<Match>)
    requires IsAway(b, a) && IsMatchList(matches, b.hub.registry, "t")
    ensures Hit(a, WANTED) in matches
  {
    SplitSlashFree("t");
    assert "t"[0] != "+"[0] && "t"[0] != "#"[0];
    PlainFilterIsExact("t", "t");
    MatchMeaning(matches, b.hub.registry, "t", Hit(a, WANTED));
  }

  lemma NeedsTheQueue(b: Broker, k: ConnId, c: ClientId, id: PacketId, payload: string, matches: seq<Match>,
                      a: ClientId)
    requires id != "" && IsFresh(b, k, c) && IsMatchList(matches, b.hub.registry, "t") && IsAway(b, a)
    ensures Saves(b, PublishEvent(k, id, payload, matches)) && a in Needing(b, PublishEvent(k, id, payload, matches))
  {
    IsSaved(b, k, c, id, payload, matches);
    IsMatched(b, a, matches);
    var p := SavedPacket(b, PublishEvent(k, id, payload, matches));
    assert NeedsQueue(b.hub.sessions, p, QUIET, Hit(a, WANTED));
  }

  // ---- Two subscribers, one row ----

  /** Subscribers "a" and "b" are offline and "c" is served. */
  ghost predicate Ready(b: Broker) {
    Inv(b) && b.tables.offline == map[] && IsFresh(b, 2, "c") && IsAway(b, "a") && IsAway(b, "b")
  }

  lemma ReadyIsReachable(b: Broker) returns (events: seq<Event>)
    requires Init(b) && b.tables.offline == map[]
    ensures Ready(Run(b, events))
  {
    var e1 := ComesAndGoes(b, "a", 0);
    var b1 := Run(b, e1);
    var e2 := ComesAndGoes(b1, "b", 1);
    var b2 := Run(b1, e2);
    var e3 := Joins(b2, "c", 2);
    RunConcat(b, e1, e2);
    RunConcat(b, e1 + e2, e3);
    events := e1 + e2 + e3;
    RunInv(b, events);
  }

  lemma NotBoth(b: Broker, e: Event)
    requires Inv(b) && b.tables.offline == map[] && Acknowledges(b, e) && Needing(b, e) != {}
    ensures RowsOf(Step(b, e).tables.offline, "a") == {} || RowsOf(Step(b, e).tables.offline, "b") == {}
  {
    WhoOwnsTheRow(b, e);
    var id, q' := SavedPacket(b, e).packetId, Step(b, e).tables.offline;
    assert q' == map[id := q'[id]];
  }

  /** Two subscribers are offline when a third client publishes: the broker acknowledges, both need
      the queue, and one of them has no row. */
  lemma OneRowForTwoSubscribers(b: Broker) returns (events: seq<Event>, e: Event, c: ClientId)
    requires Init(b) && b.tables.offline == map[]
    ensures var b' := Run(b, events);
            && Acknowledges(b', e) && Needing(b', e) >= {"a", "b"} && c in {"a", "b"}
            && RowsOf(Step(b', e).tables.offline, c) == {}
  {
    events := ReadyIsReachable(b);
    var b' := Run(b, events);
    var matches := SomeMatchList(b'.hub.registry, "t");
    e := PublishEvent(2, "m", "1", matches);
    IsAcknowledged(b', 2, "c", "m", "1", matches);
    NeedsTheQueue(b', 2, "c", "m", "1", matches, "a");
    NeedsTheQueue(b', 2, "c", "m", "1", matches, "b");
    NotBoth(b', e);
    c := if RowsOf(Step(b', e).tables.offline, "a") == {} then "a" else "b";
  }

  // ---- One subscriber with a queued row ----

  /** Subscriber "a" is offline, "c" and "d" are served, and the queue is empty. */
  ghost predicate Waiting(b: Broker) {
    && Inv(b) && b.tables.offline == map[] && IsFresh(b, 1, "c") && IsFresh(b, 2, "d") && 3 !in b.hub.conns
    && IsAway(b, "a") && b.hub.registry == map["a" := [WANTED]] && "a" in b.gate.seen
  }

  lemma WaitingIsReachable(b: Broker) returns (events: seq<Event>)
    requires Init(b) && b.tables.offline == map[]
    ensures Waiting(Run(b, events))
  {
    var e1 := ComesAndGoes(b, "a", 0);
    var b1 := Run(b, e1);
    var e2 := Joins(b1, "c", 1);
    var b2 := Run(b1, e2);
    var e3 := Joins(b2, "d", 2);
    RunConcat(b, e1, e2);
    RunConcat(b, e1 + e2, e3);
    events := e1 + e2 + e3;
    RunInv(b, events);
  }

  /** The queue holds "m" for "a", with payload "1". */
  ghost predicate IsQueued(b: Broker) {
    && Inv(b) && IsFresh(b, 2, "d") && 3 !in b.hub.conns && IsAway(b, "a") && "a" in b.gate.seen
    && b.tables.offline.Keys == {"m"} && b.tables.offline["m"].clientId == "a" && b.tables.offline["m"].payload == "1"
  }

  lemma OnlyANeeds(b: Broker, e: Event, m: Match)
    requires Waiting(b) && Saves(b, e) && m in e.env.matches
    ensures m.clientId == "a"
  {
    MatchMeaning(e.env.matches, b.hub.registry, e.packet.topic, m);
  }

  lemma OnlyRowIsAs(b: Broker, e: Event)
    requires Waiting(b) && Acknowledges(b, e) && "a" in Needing(b, e)
    ensures var p, q' := SavedPacket(b, e), Step(b, e).tables.offline;
            && q'.Keys == {p.packetId} && q'[p.packetId].clientId == "a"
            && q'[p.packetId].payload == Filled(p.payload)
  {
    WhoOwnsTheRow(b, e);
    var m :| IsNewRow(b, e, m, b.tables.offline, Step(b, e).tables.offline);
    OnlyANeeds(b, e, m);
  }

  lemma SaveEffect(b: Broker, e: Event, c: ClientId)
    requires Saves(b, e) && b.hub.conns[e.conn].clientId == c
    ensures Step(b, e).hub == b.hub && Step(b, e).gate.seen.Keys == b.gate.seen.Keys + {c}
  {
    StepHub(b, e);
    StepGate(b, e);
  }

  lemma QueuedStep(b: Broker, matches: seq<Match>)
    requires Waiting(b) && IsMatchList(matches, b.hub.registry, "t")
    ensures IsQueued(Step(b, PublishEvent(1, "m", "1", matches)))
  {
    var e := PublishEvent(1, "m", "1", matches);
    IsAcknowledged(b, 1, "c", "m", "1", matches);
    NeedsTheQueue(b, 1, "c", "m", "1", matches, "a");
    IsSaved(b, 1, "c", "m", "1", matches);
    OnlyRowIsAs(b, e);
    StepInv(b, e);
    SaveEffect(b, e, "c");
  }

  lemma QueuedIsReachable(b: Broker) returns (events: seq<Event>)
    requires Init(b) && b.tables.offline == map[]
    ensures IsQueued(Run(b, events))
  {
    var before := WaitingIsReachable(b);
    var b1 := Run(b, before);
    var matches := SomeMatchList(b1.hub.registry, "t");
    QueuedStep(b1, matches);
    RunSnoc(b, before, PublishEvent(1, "m", "1", matches));
    events := before + [PublishEvent(1, "m", "1", matches)];
  }

  /** A publisher reuses the id of a message that is still queued for the only offline subscriber: the
      broker acknowledges the new message, and the queue holds it for nobody. */
  lemma ReusedIdIsLost(b: Broker) returns (events: seq<Event>, e: Event)
    requires Init(b) && b.tables.offline == map[]
    ensures var b' := Run(b, events);
            && Acknowledges(b', e) && "a" in Needing(b', e) && !HoldsFor(Step(b', e).tables.offline, b', e, "a")
            && forall row :: row in Step(b', e).tables.offline.Values ==> row.payload != e.packet.payload
  {
    events := QueuedIsReachable(b);
    var b' := Run(b, events);
    var matches := SomeMatchList(b'.hub.registry, "t");
    e := PublishEvent(2, "m", "2", matches);
    IsAcknowledged(b', 2, "d", "m", "2", matches);
    IsSaved(b', 2, "d", "m", "2", matches);
    NeedsTheQueue(b', 2, "d", "m", "2", matches, "a");
    WhoOwnsTheRow(b', e);
    assert "1"[0] != "2"[0];
  }

  /** A PUBACK of "d" takes the only row of "a". */
  lemma StrangersPubAckEmptiesQueue(b: Broker) returns (events: seq<Event>, e: Event)
    requires Init(b) && b.tables.offline == map[]
    ensures var b' := Run(b, events);
            && e.conn in b'.hub.conns && b'.hub.conns[e.conn].Bound? && b'.hub.conns[e.conn].clientId == "d"
            && RowsOf(b'.tables.offline, "a") != {} && RowsOf(Step(b', e).tables.offline, "a") == {}
  {
    events := QueuedIsReachable(b);
    var b' := Run(b, events);
    e := PubAckEvent(2, "m");
    assert b'.tables.offline["m"] in RowsOf(b'.tables.offline, "a");
    AnyClientsPubAckRemoves(b', e, "m", "a");
  }

  // ---- A retry of the bridge that recovers ----

  /** CONNECT of "a" on connection 3, a replay that cannot read the queue, and SUBSCRIBE. */
  function Retry(now: int): Bridge.Handshake {
    Bridge.Handshake(Accept(3, Hello("a"), Some(AdminClaims("a")), true, true), [], Replay(3, None, 0), [],
                     SubscribeEvent(3, now))
  }

  lemma RetryIsHandshake(b: Broker) returns (h: Bridge.Handshake)
    requires IsQueued(b)
    ensures h == Retry(b.gate.seen["a"].resetAt + 1)
    ensures Bridge.IsHandshake(b, h, 3) && Bridge.IsGranted(Bridge.AfterMid2(b, h), h.subscribe)
    ensures Bridge.AfterMid2(b, h).tables == b.tables
  {
    h := Retry(b.gate.seen["a"].resetAt + 1);
    Effect(b, h.accept);
    Effect(Step(b, h.accept), h.replay);
  }

  /** While its row is queued, a client that retries as the bridge does reaches consume if the broker
      fails to read the queue; the row stays. */
  lemma FailedReadReachesConsume(b0: Broker) returns (history: seq<Event>, h: Bridge.Handshake, a: Bridge.Attempt)
    requires Init(b0) && b0.tables.offline == map[]
    ensures var b := Run(b0, history);
            && Bridge.IsHandshake(b, h, 3) && h.accept.hello == Hello("a")
            && RowsOf(b.tables.offline, "a") != {}
            && a.inbound == Bridge.Stream(Step(Bridge.AfterMid2(b, h), h.subscribe).trace.sends, 3)
            && Bridge.ReachesConsume(a)
            && RowsOf(Step(Bridge.AfterMid2(b, h), h.subscribe).tables.offline, "a") == RowsOf(b.tables.offline, "a")
  {
    history := QueuedIsReachable(b0);
    var b := Run(b0, history);
    assert b.tables.offline["m"] in RowsOf(b.tables.offline, "a");
    h := RetryIsHandshake(b);
    Provenance.RunKnown(b0, history);
    Bridge.NothingArrives(b.trace.sends, 3);
    var live1, live2, tail := Bridge.HandshakeStream(b, h, 3);
    a := Bridge.Attempt(3, true, true, true,
                        Bridge.Stream(Step(Bridge.AfterMid2(b, h), h.subscribe).trace.sends, 3), (n: nat) => true);
    Bridge.ReachesConsumeExactly(b, h, 3, [], a);
    SubscribeEffect(Bridge.AfterMid2(b, h), h.subscribe, "a");
  }
}
