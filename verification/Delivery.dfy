/** What devices can receive, over every run: the access rules, matching, routing and replay together. */
module Delivery {
  import opened Types
  import opened Topics
  import opened Acl
  import opened Routing
  import opened StateMachine
  import opened Invariants
  import opened Steps
  import opened SessionTheorems
  import opened Provenance

  /** Over every run, a PUBLISH accepted from a device connection matches no filter granted to a
      device connection whose id has no "#" level, at whatever points of the run the two happen. */
  lemma DevicePublishMissesDeviceFilters(b0: Broker, events: seq<Event>, i: nat, j: nat, s: Subscription)
    requires Init(b0) && i < |events| && j < |events|
    requires var b, e := Run(b0, events[..i]), events[i];
             Saves(b, e) && b.hub.conns[e.conn].claims.role == Device
    requires var b, e := Run(b0, events[..j]), events[j];
             && Receives(b, e) && Subscribes(b, e, b.hub.conns[e.conn].clientId) && s in e.packet.subscriptions
             && b.hub.conns[e.conn].claims.role == Device && "#" !in Split(b.hub.conns[e.conn].clientId)
    ensures !Matches(s.topic, events[i].packet.topic)
  {
    RunInv(b0, events[..j]);
    var b, e := Run(b0, events[..j]), events[j];
    var b', e' := Run(b0, events[..i]), events[i];
    DevicePublishMissesCommand(b'.hub.conns[e'.conn].claims, e'.packet.topic, b.hub.conns[e.conn].clientId);
  }

  // ---- Exact delivery ----

  /** Client c connects with device claims only. */
  ghost predicate DeviceBind(b: Broker, e: Event, c: ClientId) {
    Binds(b, e, c, e.conn) ==> e.claims.value.role == Device
  }

  ghost predicate DeviceRun(b: Broker, events: seq<Event>, c: ClientId) {
    forall i :: 0 <= i < |events| ==> DeviceBind(Run(b, events[..i]), events[i], c)
  }

  ghost predicate DeviceConns(conns: map<ConnId, Connection>, c: ClientId) {
    forall k :: IsFor(conns, k, c) ==> conns[k].claims.role == Device
  }

  lemma ConnsAreNewOrKept(b: Broker, e: Event, k: ConnId, c: ClientId)
    requires IsFor(Step(b, e).hub.conns, k, c)
    ensures IsFor(b.hub.conns, k, c) || (Binds(b, e, c, k) && Step(b, e).hub.conns[k].claims == e.claims.value)
    ensures IsFor(b.hub.conns, k, c) ==> Step(b, e).hub.conns[k].claims == b.hub.conns[k].claims
  {
    StepHub(b, e);
  }

  lemma GrantedTopics(b: Broker, e: Event, c: ClientId)
    requires Inv(b) && DeviceConns(b.hub.conns, c) && Subscribes(b, e, c)
    ensures forall s :: s in e.packet.subscriptions ==> s.topic == CommandTopic(c)
  {
    var claims := b.hub.conns[e.conn].claims;
    assert IsFor(b.hub.conns, e.conn, c);
    forall s | s in e.packet.subscriptions ensures s.topic == CommandTopic(c) {
      assert CanSubscribe(claims, s.topic);
    }
  }

  lemma PrefixDevice(b: Broker, events: seq<Event>, c: ClientId, n: nat)
    requires DeviceRun(b, events, c) && n <= |events|
    ensures DeviceRun(b, events[..n], c)
  {
    assert forall i :: 0 <= i < n ==> events[..n][..i] == events[..i];
  }

  /** A client that connects with device claims only is granted its command topic only. */
  lemma {:induction false} DeviceRequests(b: Broker, events: seq<Event>, c: ClientId)
    requires Init(b) && DeviceRun(b, events, c)
    ensures DeviceConns(Run(b, events).hub.conns, c)
    ensures forall s :: s in Requests(b, events, c) ==> s.topic == CommandTopic(c)
  {
    if events != [] {
      var front, last := events[..|events| - 1], events[|events| - 1];
      PrefixDevice(b, events, c, |events| - 1);
      DeviceRequests(b, front, c);
      RunInv(b, front);
      forall k | IsFor(Run(b, events).hub.conns, k, c) ensures Run(b, events).hub.conns[k].claims.role == Device {
        ConnsAreNewOrKept(Run(b, front), last, k, c);
      }
      if Subscribes(Run(b, front), last, c) {
        GrantedTopics(Run(b, front), last, c);
      }
    }
  }

  /** The origin of a packet for a device matches its command filter. */
  lemma OriginMatches(b: Broker, events: seq<Event>, i: nat, c: ClientId, p: Packet)
    requires Init(b) && DeviceRun(b, events, c) && IsOrigin(b, events, i, c, p)
    ensures Matches(CommandTopic(c), p.topic)
  {
    PrefixDevice(b, events, c, i);
    DeviceRequests(b, events[..i], c);
  }

  /** Exact device delivery: over every run in which c connects with device claims only, for an id
      without wildcard levels, every PUBLISH put on a connection of c, routed or replayed, has topic
      exactly device/c/command, if the rows left by an earlier broker for c have. */
  lemma ExactDeviceDelivery(b: Broker, events: seq<Event>, c: ClientId, s: Sent)
    requires Init(b) && !HasWildcard(c) && DeviceRun(b, events, c)
    requires forall id :: id in b.tables.offline && b.tables.offline[id].clientId == c ==>
               b.tables.offline[id].topic == CommandTopic(c)
    requires s in Run(b, events).trace.sends && s.packet.kind.Publish? && IsFor(Run(b, events).hub.conns, s.conn, c)
    ensures s.packet.topic == CommandTopic(c)
  {
    ReceivedWasPublished(b, events, c, s);
    if HasOrigin(b, events, c, s.packet) {
      var i :| IsOrigin(b, events, i, c, s.packet);
      OriginMatches(b, events, i, c, s.packet);
      CommandFilterIsExact(c, s.packet.topic);
    }
  }

  /** Commands come from administrators: over every run in which c connects with device claims only, for
      an id without a "#" level, every PUBLISH put on a connection of c carries the id, topic and payload
      of a PUBLISH accepted from an administrator, or replays a row left by an earlier broker. */
  lemma CommandsComeFromAdmins(b: Broker, events: seq<Event>, c: ClientId, s: Sent) returns (i: nat)
    requires Init(b) && "#" !in Split(c) && DeviceRun(b, events, c)
    requires s in Run(b, events).trace.sends && s.packet.kind.Publish? && IsFor(Run(b, events).hub.conns, s.conn, c)
    ensures IsLeftOver(b, c, s.packet)
            || (&& IsOrigin(b, events, i, c, s.packet)
                && Run(b, events[..i]).hub.conns[events[i].conn].claims.role == Admin)
  {
    ReceivedWasPublished(b, events, c, s);
    i := 0;
    if HasOrigin(b, events, c, s.packet) {
      i :| IsOrigin(b, events, i, c, s.packet);
      OriginMatches(b, events, i, c, s.packet);
      var claims := Run(b, events[..i]).hub.conns[events[i].conn].claims;
      if claims.role == Device {
        DevicePublishMissesCommand(claims, s.packet.topic, c);
      }
    }
  }
}
