/** The path of telemetry from a device through the broker and the bridge to the hub. */
module TelemetryPath {
  import opened Types
  import opened Topics
  import opened Acl
  import opened Routing
  import opened StateMachine
  import opened Invariants
  import opened SessionTheorems
  import opened Provenance
  import opened Bridge

  function TelemetryTopic(id: string): string {
    "device/" + id + "/" + "telemetry"
  }

  /** The bridge's filter, "device/+/telemetry", selects exactly the telemetry topics of one-level
      device ids, and the device it reports for them is that id. */
  lemma TelemetryFilterMeaning(topic: string)
    ensures Matches(TelemetryTopic("+"), topic) <==> topic == TelemetryTopic(TopicOwner(topic))
  {
    var ts, owner := Split(topic), TopicOwner(topic);
    JoinSplit(topic);
    TelemetryLevels("+");
    FilterLevels(ts);
    if Matches(TelemetryTopic("+"), topic) {
      assert ts[1] in ts;
      TelemetryLevels(owner);
      JoinSplit(TelemetryTopic(owner));
    }
    if topic == TelemetryTopic(owner) {
      assert owner == "" || owner in ts;
      TelemetryLevels(owner);
    }
  }

  lemma TelemetryLevels(id: string)
    requires '/' !in id
    ensures Split(TelemetryTopic(id)) == ["device", id, "telemetry"]
  {
    DeviceLevels(id, "telemetry");
    SplitSlashFree(id);
    SplitSlashFree("telemetry");
  }

  lemma FilterLevels(ts: seq<string>)
    ensures LevelsMatch(["device", "+", "telemetry"], ts) <==>
            |ts| == 3 && ts == ["device", ts[1], "telemetry"]
  {
    var fs := ["device", "+", "telemetry"];
    assert fs[..3] == fs;
    HashAt(fs, 3);
    if LevelsMatch(fs, ts) {
      assert LevelAgrees(fs[0], ts[0]) && LevelAgrees(fs[2], ts[2]);
    }
  }

  /** Who may publish the telemetry topic of a one-level id: administrators and that device. */
  lemma TelemetrySenders(claims: Claims, topic: string)
    requires topic == TelemetryTopic(TopicOwner(topic))
    ensures CanPublish(claims, topic) <==>
              claims.role == Admin || (claims.role == Device && claims.deviceId == TopicOwner(topic))
  {
    var owner := TopicOwner(topic);
    OwnerIsOneLevel(topic);
    if DevicePrefix(claims.deviceId) <= topic {
      BelowItsDevice(owner, claims.deviceId);
    }
    OwnPrefix(owner);
    NotACommand(owner);
  }

  lemma OwnPrefix(owner: string)
    ensures DevicePrefix(owner) <= TelemetryTopic(owner)
  {
  }

  /** The telemetry topic of a one-level id lies below no other id. */
  lemma BelowItsDevice(owner: string, id: string)
    requires '/' !in owner && DevicePrefix(id) <= TelemetryTopic(owner)
    ensures id == owner
  {
    var topic := TelemetryTopic(owner);
    var rest := topic[|DevicePrefix(id)|..];
    assert topic == "device/" + id + "/" + rest;
    TelemetryLevels(owner);
    DeviceLevels(id, rest);
    OnlyLevel(id, rest, owner);
  }

  lemma OwnerIsOneLevel(topic: string)
    ensures '/' !in TopicOwner(topic)
  {
    JoinSplit(topic);
    assert TopicOwner(topic) == "" || TopicOwner(topic) in Split(topic);
  }

  lemma OnlyLevel(id: string, rest: string, owner: string)
    requires ["device"] + Split(id) + Split(rest) == ["device", owner, "telemetry"]
    ensures id == owner
  {
    JoinSplit(id);
    var all := ["device"] + Split(id) + Split(rest);
    assert |Split(id)| == 1;
    assert all[1] == Split(id)[0];
    assert Split(id) == [owner];
  }

  lemma NotACommand(owner: string)
    ensures !HasSuffix(TelemetryTopic(owner), "/command")
  {
    var topic := TelemetryTopic(owner);
    assert topic[|topic| - 8..][7] == topic[|topic| - 1] == 'y' && "/command"[7] == 'd';
  }

  // ---- What the bridge receives ----

  ghost predicate AsksForTelemetry(b: Broker, events: seq<Event>, c: ClientId) {
    forall q :: q in Requests(b, events, c) ==> q.topic == TelemetryTopic("+")
  }

  lemma {:induction false} RequestsGrow(b: Broker, events: seq<Event>, n: nat, c: ClientId)
    requires n <= |events|
    ensures Requests(b, events[..n], c) <= Requests(b, events, c)
  {
    if n == |events| {
      assert events[..n] == events;
    } else {
      var front := events[..|events| - 1];
      assert front[..n] == events[..n];
      RequestsGrow(b, front, n, c);
    }
  }

  /** The telemetry topic of a one-level device id. */
  ghost predicate IsTelemetry(topic: string) {
    topic == TelemetryTopic(TopicOwner(topic))
  }

  lemma OriginIsTelemetry(b: Broker, events: seq<Event>, i: nat, c: ClientId, p: Packet)
    requires AsksForTelemetry(b, events, c) && IsOrigin(b, events, i, c, p)
    ensures IsTelemetry(p.topic)
    ensures var claims := Run(b, events[..i]).hub.conns[events[i].conn].claims;
            claims.role == Admin || (claims.role == Device && claims.deviceId == TopicOwner(p.topic))
  {
    RequestsGrow(b, events, i, c);
    var q :| q in Requests(b, events[..i], c) && Matches(q.topic, p.topic);
    TelemetryFilterMeaning(p.topic);
    TelemetrySenders(Run(b, events[..i]).hub.conns[events[i].conn].claims, p.topic);
  }

  /** The packet is telemetry that an administrator or the device it names published in the run. */
  ghost predicate IsAuthentic(b: Broker, events: seq<Event>, i: int, c: ClientId, p: Packet) {
    && IsOrigin(b, events, i, c, p) && IsTelemetry(p.topic)
    && var claims := Run(b, events[..i]).hub.conns[events[i].conn].claims;
       claims.role == Admin || (claims.role == Device && claims.deviceId == TopicOwner(p.topic))
  }

  /** Over every run in which client c asks for "device/+/telemetry" only, every PUBLISH put on one of its
      connections is telemetry of a one-level device id, published by that device or an administrator,
      or replays a row left by an earlier broker. */
  lemma BridgeReceivesTelemetry(b: Broker, events: seq<Event>, c: ClientId, s: Sent) returns (i: nat)
    requires Init(b) && AsksForTelemetry(b, events, c)
    requires s in Run(b, events).trace.sends && s.packet.kind.Publish? && IsFor(Run(b, events).hub.conns, s.conn, c)
    ensures IsLeftOver(b, c, s.packet) || IsAuthentic(b, events, i, c, s.packet)
  {
    ReceivedWasPublished(b, events, c, s);
    i := 0;
    if HasOrigin(b, events, c, s.packet) {
      i :| IsOrigin(b, events, i, c, s.packet);
      OriginIsTelemetry(b, events, i, c, s.packet);
    }
  }

  // ---- What the bridge broadcasts ----

  lemma {:induction false} BroadcastsArePublishes(packets: seq<Packet>, ackOk: nat -> bool, t: Telemetry)
    returns (p: Packet)
    requires t in ConsumeAll(packets, ackOk).broadcast
    ensures p in packets && p.kind == Publish && t == TelemetryOf(p)
  {
    var n := |packets| - 1;
    if t in ConsumeAll(packets[..n], ackOk).broadcast {
      p := BroadcastsArePublishes(packets[..n], ackOk, t);
    } else {
      p := packets[n];
    }
  }

  /** What each attempt that got through read was sent to it in the run, on a connection of client c. */
  ghost predicate ReadsFrom(b: Broker, attempts: seq<Attempt>, c: ClientId) {
    forall a :: a in attempts && ReachesConsume(a) ==>
      IsFor(b.hub.conns, a.conn, c) && a.inbound <= Stream(b.trace.sends, a.conn)
  }

  lemma BroadcastWasSent(b: Broker, attempts: seq<Attempt>, c: ClientId, t: Telemetry) returns (s: Sent)
    requires ReadsFrom(b, attempts, c) && t in FlatMap(attempts, Broadcasts())
    ensures s in b.trace.sends && s.packet.kind.Publish? && IsFor(b.hub.conns, s.conn, c) && t == TelemetryOf(s.packet)
  {
    FlatMapMember(attempts, Broadcasts(), t);
    var a :| a in attempts && t in Broadcasts()(a);
    var p := BroadcastsArePublishes(a.inbound[2..], a.ackOk, t);
    var stream := Stream(b.trace.sends, a.conn);
    var i :| 0 <= i < |a.inbound[2..]| && a.inbound[2..][i] == p;
    assert stream[2 + i] == p;
    s := ArrivedFrom(b.trace.sends, a.conn, p);
  }

  /** End to end: over every run in which the bridge's id asks for telemetry only, every event the retry
      loop broadcasts names a device d, has topic device/d/telemetry, and carries the id and payload of
      a PUBLISH accepted from d or from an administrator, or else stems from a row left for the bridge by
      an earlier broker. */
  lemma BroadcastsAreAuthentic(b: Broker, events: seq<Event>, c: ClientId, attempts: seq<Attempt>, t: Telemetry)
    returns (p: Packet, i: nat)
    requires Init(b) && AsksForTelemetry(b, events, c) && ReadsFrom(Run(b, events), attempts, c)
    requires t in FlatMap(attempts, Broadcasts())
    ensures t == TelemetryOf(p)
    ensures IsLeftOver(b, c, p) || (IsAuthentic(b, events, i, c, p) && t.topic == TelemetryTopic(t.deviceId))
  {
    var s := BroadcastWasSent(Run(b, events), attempts, c, t);
    p := s.packet;
    i := BridgeReceivesTelemetry(b, events, c, s);
  }
}
