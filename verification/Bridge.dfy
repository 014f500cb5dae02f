/** The API bridge (api/services/bridge.go): its handshake and consume loop, and what becomes of them
    against the broker. */
module Bridge {
  import opened Types
  import opened Topics
  import opened Storage
  import opened Routing
  import opened StateMachine
  import opened Steps
  import opened Invariants
  import opened Durability
  import opened Provenance

  datatype Telemetry = Telemetry(
    packetId: PacketId,
    deviceId: string,
    topic: string,
    qos: int,
    timestamp: int,
    payload: string)

  /** One turn of the retry loop: the connection it dials, which of its calls succeed, the packets it
      can read before a read fails, and whether the PUBACK for the n-th packet consumed is sent. */
  datatype Attempt = Attempt(
    conn: ConnId,
    dialOk: bool,
    connectSent: bool,
    subscribeSent: bool,
    inbound: seq<Packet>,
    ackOk: nat -> bool)

  /** Does the attempt get as far as consume?  It needs CONNACK first and SUBACK next. */
  predicate ReachesConsume(a: Attempt) {
    && a.dialOk && a.connectSent && |a.inbound| >= 1 && a.inbound[0].kind == ConnAck
    && a.subscribeSent && |a.inbound| >= 2 && a.inbound[1].kind == SubAck
  }

  function TelemetryOf(p: Packet): Telemetry {
    Telemetry(p.packetId, TopicOwner(p.topic), p.topic, p.qos, p.timestamp, p.payload)
  }

  /** The events consume broadcasts and the PUBACKs it sends: it stops after a PUBACK that fails. */
  datatype Consumed = Consumed(broadcast: seq<Telemetry>, acked: seq<PacketId>, stopped: bool)

  function ConsumeOne(c: Consumed, p: Packet, ackOk: bool): Consumed {
    if c.stopped || p.kind != Publish then c
    else
      var c1 := c.(broadcast := c.broadcast + [TelemetryOf(p)]);
      if p.qos <= 0 then c1
      else if ackOk then c1.(acked := c1.acked + [p.packetId])
      else c1.(stopped := true)
  }

  function ConsumeAll(packets: seq<Packet>, ackOk: nat -> bool): Consumed {
    if packets == [] then Consumed([], [], false)
    else
      var n := |packets| - 1;
      ConsumeOne(ConsumeAll(packets[..n], ackOk), packets[n], ackOk(n))
  }

  /** What one attempt leaves behind. */
  function Outcome(a: Attempt): Consumed {
    if ReachesConsume(a) then ConsumeAll(a.inbound[2..], a.ackOk) else Consumed([], [], false)
  }

  function Broadcasts(): Attempt -> seq<Telemetry> {
    (a: Attempt) => Outcome(a).broadcast
  }

  function Acknowledgements(): Attempt -> seq<PacketId> {
    (a: Attempt) => Outcome(a).acked
  }

  class Bridge {
    var client: Option<ConnId>
    var hub: seq<Telemetry>
    var acks: seq<PacketId>

    constructor ()
      ensures client == None && hub == [] && acks == []
    {
      client, hub, acks := None, [], [];
    }

    method SetClient(conn: ConnId)
      modifies this`client
      ensures client == Some(conn)
    {
      client := Some(conn);
    }

    /** Clears the client only if it is still this one. */
    method ClearClient(conn: ConnId)
      modifies this`client
      ensures client == if old(client) == Some(conn) then None else old(client)
    {
      if client == Some(conn) {
        client := None;
      }
    }

    /** consume: runs with the client set, until a read or a PUBACK fails. */
    method Consume(packets: seq<Packet>, ackOk: nat -> bool)
      requires client.Some?
      modifies this`hub, this`acks
      ensures var c := ConsumeAll(packets, ackOk);
              hub == old(hub) + c.broadcast && acks == old(acks) + c.acked
      ensures old(hub) <= hub && old(acks) <= acks
      ensures IsConsumed(hub[|old(hub)|..], acks[|old(acks)|..], packets, ackOk)
    {
      var n, stopped := 0, false;
      while n < |packets| && !stopped
        invariant 0 <= n <= |packets|
        invariant var c := ConsumeAll(packets[..n], ackOk);
                  hub == old(hub) + c.broadcast && acks == old(acks) + c.acked && stopped == c.stopped
      {
        assert packets[..n + 1][..n] == packets[..n];
        var p := packets[n];
        if p.kind == Publish {
          hub := hub + [TelemetryOf(p)];
          if p.qos > 0 {
            if ackOk(n) {
              acks := acks + [p.packetId];
            } else {
              stopped := true;
            }
          }
        }
        n := n + 1;
      }
      ConsumeStops(packets, ackOk, n);
      ConcatSuffix(old(hub), ConsumeAll(packets, ackOk).broadcast);
      ConcatSuffix(old(acks), ConsumeAll(packets, ackOk).acked);
      ConsumedExactly(packets, ackOk);
    }

    /** One turn of the retry loop.  Every path out of it closes the connection; afterwards no client
        is set. */
    method Try(a: Attempt)
      requires client == None
      modifies this
      ensures client == None
      ensures hub == old(hub) + Outcome(a).broadcast && acks == old(acks) + Outcome(a).acked
    {
      if !a.dialOk {
        return;
      }
      if !a.connectSent || |a.inbound| < 1 || a.inbound[0].kind != ConnAck {
        return;
      }
      if !a.subscribeSent || |a.inbound| < 2 || a.inbound[1].kind != SubAck {
        return;
      }
      SetClient(a.conn);
      Consume(a.inbound[2..], a.ackOk);
      ClearClient(a.conn);
    }

    /** Start: the retry loop, over as many attempts as the context allows. */
    method Start(attempts: seq<Attempt>)
      requires client == None
      modifies this
      ensures client == None
      ensures hub == old(hub) + FlatMap(attempts, Broadcasts())
      ensures acks == old(acks) + FlatMap(attempts, Acknowledgements())
    {
      for n := 0 to |attempts|
        invariant client == None
        invariant hub == old(hub) + FlatMap(attempts[..n], Broadcasts())
        invariant acks == old(acks) + FlatMap(attempts[..n], Acknowledgements())
      {
        assert attempts[..n + 1] == attempts[..n] + [attempts[n]];
        FlatMapSnoc(attempts[..n], attempts[n], Broadcasts());
        FlatMapSnoc(attempts[..n], attempts[n], Acknowledgements());
        ConcatAssoc(old(hub), FlatMap(attempts[..n], Broadcasts()), Broadcasts()(attempts[n]));
        ConcatAssoc(old(acks), FlatMap(attempts[..n], Acknowledgements()), Acknowledgements()(attempts[n]));
        Try(attempts[n]);
      }
      assert attempts[..|attempts|] == attempts;
    }
  }

  // ---- What consume does, packet by packet ----

  predicate IsPublish(p: Packet) { p.kind == Publish }
  predicate WantsAck(p: Packet) { p.kind == Publish && p.qos > 0 }

  /** Index of the first PUBLISH of positive QoS whose PUBACK fails, or the number of packets. */
  function FirstUnacked(packets: seq<Packet>, ackOk: nat -> bool): (n: nat)
    ensures n <= |packets|
    ensures n < |packets| ==> packets[n].kind == Publish && packets[n].qos > 0 && !ackOk(n)
    ensures forall i :: 0 <= i < n && packets[i].kind == Publish && packets[i].qos > 0 ==> ackOk(i)
  {
    if packets == [] then 0
    else
      var last := |packets| - 1;
      var n := FirstUnacked(packets[..last], ackOk);
      if n < last then n else if WantsAck(packets[last]) && !ackOk(last) then last else last + 1
  }

  /** One event per packet, in order, with its fields and the level below "device" as the device. */
  ghost predicate Reports(events: seq<Telemetry>, packets: seq<Packet>) {
    && |events| == |packets|
    && forall i :: 0 <= i < |packets| ==>
         var t, p := events[i], packets[i];
         var levels := Split(p.topic);
         && t.packetId == p.packetId && t.topic == p.topic && t.qos == p.qos && t.payload == p.payload
         && t.timestamp == p.timestamp
         && t.deviceId == if |levels| >= 2 && levels[0] == "device" then levels[1] else ""
  }

  /** The ids of the packets, in order. */
  ghost predicate Confirms(ids: seq<PacketId>, packets: seq<Packet>) {
    |ids| == |packets| && forall i :: 0 <= i < |packets| ==> ids[i] == packets[i].packetId
  }

  lemma ReportsSnoc(events: seq<Telemetry>, packets: seq<Packet>, p: Packet)
    requires Reports(events, packets)
    ensures Reports(events + [TelemetryOf(p)], packets + [p])
  {
  }

  /** The packets consume takes in: up to and including the first PUBLISH whose PUBACK fails. */
  function Taken(packets: seq<Packet>, ackOk: nat -> bool): seq<Packet> {
    var n := FirstUnacked(packets, ackOk);
    packets[..if n < |packets| then n + 1 else n]
  }

  /** Every PUBLISH taken in is broadcast, once and in order; those of positive QoS before the first whose
      PUBACK fails are acknowledged, once and in order; nothing else is. */
  ghost predicate IsConsumed(broadcast: seq<Telemetry>, acked: seq<PacketId>, packets: seq<Packet>,
                             ackOk: nat -> bool) {
    && Reports(broadcast, Filter(Taken(packets, ackOk), IsPublish))
    && Confirms(acked, Filter(packets[..FirstUnacked(packets, ackOk)], WantsAck))
  }

  lemma StoppedStays(front: seq<Packet>, p: Packet, ackOk: nat -> bool)
    requires FirstUnacked(front, ackOk) < |front|
    ensures FirstUnacked(front + [p], ackOk) == FirstUnacked(front, ackOk)
    ensures Taken(front + [p], ackOk) == Taken(front, ackOk)
    ensures (front + [p])[..FirstUnacked(front, ackOk)] == front[..FirstUnacked(front, ackOk)]
  {
    var n := FirstUnacked(front, ackOk);
    TakeConcat(front, [p], |front|);
    TakeConcat(front, [p], n);
    TakeConcat(front, [p], n + 1);
    assert front[..|front|] == front;
    assert (front + [p])[..|front + [p]| - 1] == front;
  }

  lemma GoesOn(front: seq<Packet>, p: Packet, ackOk: nat -> bool)
    requires FirstUnacked(front, ackOk) == |front|
    ensures FirstUnacked(front + [p], ackOk) == if WantsAck(p) && !ackOk(|front|) then |front| else |front| + 1
    ensures Taken(front, ackOk) == front && Taken(front + [p], ackOk) == front + [p]
  {
    TakeConcat(front, [p], |front|);
    assert front[..|front|] == front && (front + [p])[..|front + [p]|] == front + [p];
    assert (front + [p])[..|front + [p]| - 1] == front;
  }

  lemma TakesOne(c: Consumed, front: seq<Packet>, p: Packet, ackOk: nat -> bool)
    requires !c.stopped && FirstUnacked(front, ackOk) == |front| && IsConsumed(c.broadcast, c.acked, front, ackOk)
    ensures var c' := ConsumeOne(c, p, ackOk(|front|));
            && IsConsumed(c'.broadcast, c'.acked, front + [p], ackOk)
            && (c'.stopped <==> FirstUnacked(front + [p], ackOk) == |front|)
  {
    GoesOn(front, p, ackOk);
    assert front[..|front|] == front;
    assert (front + [p])[..|front|] == front && (front + [p])[..|front| + 1] == front + [p];
    FilterSnoc(front, p, IsPublish);
    FilterSnoc(front, p, WantsAck);
    ReportsSnoc(c.broadcast, Filter(front, IsPublish), p);
  }

  lemma {:induction false} ConsumedExactly(packets: seq<Packet>, ackOk: nat -> bool)
    ensures var c := ConsumeAll(packets, ackOk);
            && (c.stopped <==> FirstUnacked(packets, ackOk) < |packets|)
            && IsConsumed(c.broadcast, c.acked, packets, ackOk)
  {
    if packets != [] {
      var last := |packets| - 1;
      var front, p := packets[..last], packets[last];
      assert packets == front + [p];
      ConsumedExactly(front, ackOk);
      if FirstUnacked(front, ackOk) < last {
        StoppedStays(front, p, ackOk);
      } else {
        TakesOne(ConsumeAll(front, ackOk), front, p, ackOk);
      }
    }
  }

  /** An attempt whose calls go through and that reads CONNACK and then SUBACK leaves behind what consume
      makes of the packets after these; every other attempt leaves nothing. */
  lemma OutcomeExactly(a: Attempt)
    ensures var ok := && a.dialOk && a.connectSent && a.subscribeSent && |a.inbound| >= 2
                      && a.inbound[0].kind == ConnAck && a.inbound[1].kind == SubAck;
            if ok then IsConsumed(Outcome(a).broadcast, Outcome(a).acked, a.inbound[2..], a.ackOk)
            else Outcome(a).broadcast == [] && Outcome(a).acked == []
  {
    if |a.inbound| >= 2 {
      ConsumedExactly(a.inbound[2..], a.ackOk);
    }
  }

  lemma {:induction false} AckedWasRead(packets: seq<Packet>, ackOk: nat -> bool, id: PacketId)
    requires id in ConsumeAll(packets, ackOk).acked
    ensures exists t :: t in ConsumeAll(packets, ackOk).broadcast && t.packetId == id
  {
    var n := |packets| - 1;
    var c := ConsumeAll(packets[..n], ackOk);
    if id in c.acked {
      AckedWasRead(packets[..n], ackOk, id);
      var t :| t in c.broadcast && t.packetId == id;
      assert t in ConsumeAll(packets, ackOk).broadcast;
    } else {
      assert TelemetryOf(packets[n]) in ConsumeAll(packets, ackOk).broadcast;
    }
  }

  /** Over any attempts, no id is acknowledged without its message having been broadcast. */
  lemma AcknowledgedWasBroadcast(attempts: seq<Attempt>, id: PacketId)
    requires id in FlatMap(attempts, Acknowledgements())
    ensures exists t :: t in FlatMap(attempts, Broadcasts()) && t.packetId == id
  {
    FlatMapMember(attempts, Acknowledgements(), id);
    var a :| a in attempts && id in Acknowledgements()(a);
    AckedWasRead(a.inbound[2..], a.ackOk, id);
    var t :| t in Outcome(a).broadcast && t.packetId == id;
    FlatMapMember(attempts, Broadcasts(), t);
    assert t in Broadcasts()(a);
  }

  lemma {:induction false} ConsumeStops(packets: seq<Packet>, ackOk: nat -> bool, n: nat)
    requires n <= |packets| && (n == |packets| || ConsumeAll(packets[..n], ackOk).stopped)
    ensures ConsumeAll(packets, ackOk) == ConsumeAll(packets[..n], ackOk)
  {
    if n == |packets| {
      assert packets[..n] == packets;
    } else {
      var front := packets[..|packets| - 1];
      assert front[..n] == packets[..n];
      ConsumeStops(front, ackOk, n);
    }
  }

  // ---- The bridge against the broker ----

  /** The packets that arrive on connection k: the successful sends to it, in order. */
  function Arriving(k: ConnId): Sent -> seq<Packet> {
    (s: Sent) => if s.conn == k && s.ok then [s.packet] else []
  }

  function Stream(sends: seq<Sent>, k: ConnId): seq<Packet> {
    FlatMap(sends, Arriving(k))
  }

  ghost predicate AllPublish(packets: seq<Packet>) {
    forall i :: 0 <= i < |packets| ==> packets[i].kind == Publish
  }

  lemma ArrivedFrom(sends: seq<Sent>, k: ConnId, p: Packet) returns (s: Sent)
    requires p in Stream(sends, k)
    ensures s in sends && s.conn == k && s.ok && s.packet == p
  {
    FlatMapMember(sends, Arriving(k), p);
    s :| s in sends && p in Arriving(k)(s);
  }

  /** What a step adds to the stream of k are the packets of successful sends, each explained. */
  lemma StreamGrows(b: Broker, e: Event, k: ConnId) returns (more: seq<Packet>)
    ensures Stream(Step(b, e).trace.sends, k) == Stream(b.trace.sends, k) + more
    ensures forall p :: p in more ==> Explained(b, e, k, p)
  {
    NewSendsExplained(b, e);
    FlatMapConcat(b.trace.sends, NewSends(b, e), Arriving(k));
    more := Stream(NewSends(b, e), k);
    forall p | p in more ensures Explained(b, e, k, p) {
      var s := ArrivedFrom(NewSends(b, e), k, p);
      assert Explains(b, e, s) && s.conn == k && s.packet == p;
    }
  }

  /** The packet is that of a send to k which the event explains. */
  ghost predicate Explained(b: Broker, e: Event, k: ConnId, p: Packet) {
    exists s :: Explains(b, e, s) && s.conn == k && s.packet == p
  }

  /** Steps of other connections put nothing but live PUBLISH packets on k. */
  lemma OthersOnlyPublish(b: Broker, e: Event, k: ConnId) returns (live: seq<Packet>)
    requires e.conn != k
    ensures AllPublish(live) && Stream(Step(b, e).trace.sends, k) == Stream(b.trace.sends, k) + live
  {
    live := StreamGrows(b, e, k);
    forall i | 0 <= i < |live| ensures live[i].kind == Publish {
      assert live[i] in live;
      var s :| Explains(b, e, s) && s.conn == k && s.packet == live[i];
      PublishKinds(b, e, s);
    }
  }

  lemma JoinLive(stream: seq<Packet>, live1: seq<Packet>, live2: seq<Packet>)
    requires AllPublish(live1) && AllPublish(live2)
    ensures AllPublish(live1 + live2) && (stream + live1) + live2 == stream + (live1 + live2)
  {
  }

  lemma {:induction false} OthersRun(b: Broker, events: seq<Event>, k: ConnId) returns (live: seq<Packet>)
    requires forall e :: e in events ==> e.conn != k
    ensures AllPublish(live) && Stream(Run(b, events).trace.sends, k) == Stream(b.trace.sends, k) + live
  {
    if events == [] {
      live := [];
      assert Stream(b.trace.sends, k) + live == Stream(b.trace.sends, k);
    } else {
      var front, last := events[..|events| - 1], events[|events| - 1];
      assert last in events && forall e :: e in front ==> e in events;
      var live1 := OthersRun(b, front, k);
      var live2 := OthersOnlyPublish(Run(b, front), last, k);
      live := live1 + live2;
      JoinLive(Stream(b.trace.sends, k), live1, live2);
    }
  }

  // ---- A handshake that succeeds, and exactly when ----

  lemma {:induction false} ReplayStream(k: ConnId, packets: seq<Packet>, sent: nat, n: nat)
    requires sent <= |packets| && n <= |ReplaySends(k, packets, sent)|
    ensures Stream(ReplaySends(k, packets, sent)[..n], k) == packets[..if n < sent then n else sent]
  {
    if n > 0 {
      var all := ReplaySends(k, packets, sent);
      ReplayStream(k, packets, sent, n - 1);
      assert all[..n] == all[..n - 1] + [all[n - 1]];
      FlatMapSnoc(all[..n - 1], all[n - 1], Arriving(k));
    }
  }

  /** Replaying to k appends the packets that were sent successfully. */
  lemma ReplayAppends(b: Broker, e: Event)
    requires e.Replay? && Enabled(b, e)
    ensures Stream(Step(b, e).trace.sends, e.conn) ==
            Stream(b.trace.sends, e.conn) + if e.rows.Some? then PublishAll(e.rows.value)[..e.sent] else []
  {
    if e.rows.Some? {
      var packets := PublishAll(e.rows.value);
      var more := ReplaySends(e.conn, packets, e.sent);
      assert Step(b, e).trace.sends == b.trace.sends + more;
      FlatMapConcat(b.trace.sends, more, Arriving(e.conn));
      ReplayStream(e.conn, packets, e.sent, |more|);
      assert more[..|more|] == more;
    }
  }

  /** What an acceptable CONNECT puts on its connection: CONNACK, or nothing but an ERROR. */
  lemma AcceptAppends(b: Broker, e: Event) returns (tail: seq<Packet>)
    requires e.Accept? && Enabled(b, e) && Acceptable(e.hello, e.claims)
    ensures Stream(Step(b, e).trace.sends, e.conn) == Stream(b.trace.sends, e.conn) + tail
    ensures if e.replyOk then tail == [ConnAckPacket(ClientOf(e.hello.value, e.claims.value) in b.hub.sessions)]
            else AllErrors(tail)
  {
    StepSends(b, e);
    tail := Stream(Replies(b, e), e.conn);
    FlatMapConcat(b.trace.sends, Replies(b, e), Arriving(e.conn));
    ReplyStream(e.conn, ConnAckPacket(ClientOf(e.hello.value, e.claims.value) in b.hub.sessions), AuthFailed,
                e.replyOk, e.errorOk);
  }

  ghost predicate AllErrors(packets: seq<Packet>) {
    forall i :: 0 <= i < |packets| ==> packets[i].kind == Error
  }

  lemma ReplyStream(k: ConnId, packet: Packet, code: Code, replyOk: bool, errorOk: bool)
    ensures var tail := Stream(ReplyThenError(k, packet, code, replyOk, errorOk), k);
            if replyOk then tail == [packet] else AllErrors(tail)
    ensures AllErrors(Stream(OneReply(k, ErrorPacket(code), errorOk), k))
  {
    var first, second := Sent(k, packet, replyOk, Reply), Sent(k, ErrorPacket(code), errorOk, Reply);
    FlatMapSnoc([], first, Arriving(k));
    FlatMapSnoc([], second, Arriving(k));
    FlatMapSnoc([first], second, Arriving(k));
    assert [] + [first] == [first] && [] + [second] == [second];
  }

  /** The SUBSCRIBE is admitted and allowed, and its SUBACK is sent. */
  ghost predicate IsGranted(b: Broker, e: Event) {
    Receives(b, e) && Subscribes(b, e, b.hub.conns[e.conn].clientId) && e.env.replyOk
  }

  lemma SubscribeReplies(b: Broker, e: Event) returns (replies: seq<Sent>)
    requires Receives(b, e) && e.packet.kind == Subscribe
    ensures BeforeReplies(b, e) == b.trace.sends && replies == Replies(b, e)
    ensures replies ==
            if !IsAdmitted(b, e.conn, e.env) then OneReply(e.conn, ErrorPacket(RateLimited), e.env.errorOk)
            else if !Subscribes(b, e, b.hub.conns[e.conn].clientId)
            then OneReply(e.conn, ErrorPacket(SubscribeFailed), e.env.errorOk)
            else ReplyThenError(e.conn, AckPacket(SubAck, e.packet.packetId), SubscribeFailed,
                                e.env.replyOk, e.env.errorOk)
  {
    replies := Replies(b, e);
  }

  /** What a SUBSCRIBE puts on its connection: SUBACK, or nothing but an ERROR. */
  lemma SubscribeAppends(b: Broker, e: Event) returns (tail: seq<Packet>)
    requires Receives(b, e) && e.packet.kind == Subscribe
    ensures Stream(Step(b, e).trace.sends, e.conn) == Stream(b.trace.sends, e.conn) + tail
    ensures if IsGranted(b, e) then tail == [AckPacket(SubAck, e.packet.packetId)] else AllErrors(tail)
  {
    StepSends(b, e);
    var replies := SubscribeReplies(b, e);
    tail := Stream(replies, e.conn);
    FlatMapConcat(b.trace.sends, replies, Arriving(e.conn));
    ReplyStream(e.conn, AckPacket(SubAck, e.packet.packetId), SubscribeFailed, e.env.replyOk, e.env.errorOk);
    ReplyStream(e.conn, AckPacket(SubAck, e.packet.packetId), RateLimited, e.env.replyOk, e.env.errorOk);
  }

  /** The broker's side of one bridge attempt on a new connection: CONNECT, replay and SUBSCRIBE, with
      any steps of other connections in between. */
  datatype Handshake = Handshake(accept: Event, mid1: seq<Event>, replay: Event, mid2: seq<Event>, subscribe: Event)

  ghost function AfterReplay(b: Broker, h: Handshake): Broker {
    Step(Run(Step(b, h.accept), h.mid1), h.replay)
  }

  ghost function AfterMid2(b: Broker, h: Handshake): Broker {
    Run(AfterReplay(b, h), h.mid2)
  }

  /** The handshake gets as far as SUBSCRIBE; how its replay and its SUBSCRIBE end is open. */
  ghost predicate IsHandshake(b: Broker, h: Handshake, k: ConnId) {
    && h.accept.Accept? && Enabled(b, h.accept) && h.accept.conn == k
    && Acceptable(h.accept.hello, h.accept.claims) && h.accept.replyOk
    && (forall e :: e in h.mid1 ==> e.conn != k) && (forall e :: e in h.mid2 ==> e.conn != k)
    && h.replay.Replay? && h.replay.conn == k && Enabled(Run(Step(b, h.accept), h.mid1), h.replay)
    && Receives(AfterMid2(b, h), h.subscribe) && h.subscribe.conn == k && h.subscribe.packet.kind == Subscribe
  }

  /** What a replay gets onto its connection: nothing if the queue could not be read, else the rows
      before the first send that failed. */
  function ReplayedBy(e: Event): seq<Packet>
    requires e.Replay? && (e.rows.Some? ==> e.sent <= |e.rows.value|)
  {
    if e.rows.Some? then PublishAll(e.rows.value)[..e.sent] else []
  }

  /** The events put nothing on connection k. */
  ghost predicate Quiet(b: Broker, events: seq<Event>, k: ConnId) {
    Stream(Run(b, events).trace.sends, k) == Stream(b.trace.sends, k)
  }

  lemma FirstHalf(b: Broker, h: Handshake, k: ConnId) returns (live: seq<Packet>)
    requires IsHandshake(b, h, k) && Stream(b.trace.sends, k) == []
    ensures AllPublish(live) && (live == [] <==> Quiet(Step(b, h.accept), h.mid1, k))
    ensures Stream(Run(Step(b, h.accept), h.mid1).trace.sends, k) ==
            [ConnAckPacket(ClientOf(h.accept.hello.value, h.accept.claims.value) in b.hub.sessions)] + live
  {
    var tail := AcceptAppends(b, h.accept);
    live := OthersRun(Step(b, h.accept), h.mid1, k);
  }

  lemma SecondHalf(b3: Broker, mid2: seq<Event>, subscribe: Event, k: ConnId)
    returns (live: seq<Packet>, tail: seq<Packet>)
    requires forall e :: e in mid2 ==> e.conn != k
    requires Receives(Run(b3, mid2), subscribe) && subscribe.conn == k && subscribe.packet.kind == Subscribe
    ensures AllPublish(live) && (live == [] <==> Quiet(b3, mid2, k))
    ensures if IsGranted(Run(b3, mid2), subscribe) then tail == [AckPacket(SubAck, subscribe.packet.packetId)]
            else AllErrors(tail)
    ensures Stream(Step(Run(b3, mid2), subscribe).trace.sends, k) == Stream(b3.trace.sends, k) + live + tail
  {
    live := OthersRun(b3, mid2, k);
    tail := SubscribeAppends(Run(b3, mid2), subscribe);
  }

  /** Everything that arrives on the bridge's connection up to the answer to SUBSCRIBE: CONNACK, live
      packets that got in, what was replayed, more live packets, and SUBACK or ERROR. */
  lemma HandshakeStream(b: Broker, h: Handshake, k: ConnId)
    returns (live1: seq<Packet>, live2: seq<Packet>, tail: seq<Packet>)
    requires IsHandshake(b, h, k) && Stream(b.trace.sends, k) == []
    ensures AllPublish(live1) && (live1 == [] <==> Quiet(Step(b, h.accept), h.mid1, k))
    ensures AllPublish(live2) && (live2 == [] <==> Quiet(AfterReplay(b, h), h.mid2, k))
    ensures if IsGranted(AfterMid2(b, h), h.subscribe) then tail == [AckPacket(SubAck, h.subscribe.packet.packetId)]
            else AllErrors(tail)
    ensures Stream(Step(AfterMid2(b, h), h.subscribe).trace.sends, k) ==
            [ConnAckPacket(ClientOf(h.accept.hello.value, h.accept.claims.value) in b.hub.sessions)]
            + live1 + ReplayedBy(h.replay) + live2 + tail
  {
    live1 := FirstHalf(b, h, k);
    var b2 := Run(Step(b, h.accept), h.mid1);
    ReplayAppends(b2, h.replay);
    live2, tail := SecondHalf(Step(b2, h.replay), h.mid2, h.subscribe, k);
  }

  // ---- After the answer ----

  ghost predicate NoSubAck(packets: seq<Packet>) {
    forall i :: 0 <= i < |packets| ==> packets[i].kind != SubAck
  }

  ghost predicate NoSubscribe(events: seq<Event>, k: ConnId) {
    forall e :: e in events && e.Deliver? && e.conn == k ==> e.packet.kind != Subscribe
  }

  lemma StepAddsNoSubAck(b: Broker, e: Event, k: ConnId) returns (more: seq<Packet>)
    ensures Stream(Step(b, e).trace.sends, k) == Stream(b.trace.sends, k) + more
    ensures NoSubscribe([e], k) ==> NoSubAck(more)
  {
    more := StreamGrows(b, e, k);
    if NoSubscribe([e], k) {
      forall i | 0 <= i < |more| ensures more[i].kind != SubAck {
        assert more[i] in more && e in [e];
        var s :| Explains(b, e, s) && s.conn == k && s.packet == more[i];
        if !s.via.Reply? {
          PublishKinds(b, e, s);
        }
      }
    }
  }

  /** The stream of a connection only grows, and SUBACK comes only after SUBSCRIBE. */
  lemma {:induction false} LaterAdds(b: Broker, later: seq<Event>, k: ConnId) returns (more: seq<Packet>)
    ensures Stream(Run(b, later).trace.sends, k) == Stream(b.trace.sends, k) + more
    ensures NoSubscribe(later, k) ==> NoSubAck(more)
  {
    if later == [] {
      more := [];
      assert Stream(b.trace.sends, k) + more == Stream(b.trace.sends, k);
    } else {
      var front, last := later[..|later| - 1], later[|later| - 1];
      assert last in later && forall e :: e in front ==> e in later;
      var more1 := LaterAdds(b, front, k);
      var more2 := StepAddsNoSubAck(Run(b, front), last, k);
      more := more1 + more2;
      ConcatAssoc(Stream(b.trace.sends, k), more1, more2);
    }
  }

  /** The bridge reaches consume exactly when all its own calls go through, it reads two packets, its
      SUBSCRIBE is granted, and nothing got onto its connection between CONNACK and SUBACK: no live
      PUBLISH and, by the replay, no queued row.  That holds whatever follows the handshake and however
      much of it the bridge reads, as long as a bridge that got no answer does not subscribe again. */
  lemma ReachesConsumeExactly(b: Broker, h: Handshake, k: ConnId, later: seq<Event>, a: Attempt)
    requires IsHandshake(b, h, k) && Stream(b.trace.sends, k) == []
    requires |Stream(Step(AfterMid2(b, h), h.subscribe).trace.sends, k)| >= 2 || NoSubscribe(later, k)
    requires a.inbound <= Stream(Run(Step(AfterMid2(b, h), h.subscribe), later).trace.sends, k)
    ensures ReachesConsume(a) <==>
              && a.dialOk && a.connectSent && a.subscribeSent && |a.inbound| >= 2
              && IsGranted(AfterMid2(b, h), h.subscribe)
              && Quiet(Step(b, h.accept), h.mid1, k) && Quiet(AfterReplay(b, h), h.mid2, k)
              && ReplayedBy(h.replay) == []
  {
    var live1, live2, tail := HandshakeStream(b, h, k);
    var more := LaterAdds(Step(AfterMid2(b, h), h.subscribe), later, k);
    SecondPacket(ConnAckPacket(ClientOf(h.accept.hello.value, h.accept.claims.value) in b.hub.sessions),
                 live1, ReplayedBy(h.replay), live2, tail, more, IsGranted(AfterMid2(b, h), h.subscribe), a);
  }

  /** A replay gets nothing out exactly when the queue cannot be read, or its first send fails, or no
      queued row belongs to the client. */
  lemma ReplaysNothingExactly(b: Broker, e: Event)
    requires e.Replay? && Enabled(b, e)
    ensures ReplayedBy(e) == [] <==>
              e.rows.None? || e.sent == 0 || RowsOf(b.tables.offline, b.hub.conns[e.conn].clientId) == {}
  {
    if e.rows.Some? {
      EmptyListing(e.rows.value, b.tables.offline, b.hub.conns[e.conn].clientId);
    }
  }

  lemma SecondPacket(first: Packet, live1: seq<Packet>, replayed: seq<Packet>, live2: seq<Packet>, tail: seq<Packet>,
                     more: seq<Packet>, granted: bool, a: Attempt)
    requires AllPublish(live1) && AllPublish(replayed) && AllPublish(live2) && first.kind == ConnAck
    requires if granted then |tail| == 1 && tail[0].kind == SubAck else AllErrors(tail)
    requires |[first] + live1 + replayed + live2 + tail| >= 2 || NoSubAck(more)
    requires a.inbound <= [first] + live1 + replayed + live2 + tail + more
    ensures ReachesConsume(a) <==>
              && a.dialOk && a.connectSent && a.subscribeSent && |a.inbound| >= 2
              && granted && live1 == [] && live2 == [] && replayed == []
  {
    var rest := live1 + replayed + live2;
    assert [first] + live1 + replayed + live2 + tail + more == [first] + (rest + tail + more);
    assert AllPublish(rest);
    if |a.inbound| >= 2 {
      assert a.inbound[0] == first && a.inbound[1] == (rest + tail + more)[0];
      assert (rest + tail + more)[0] == if rest != [] then rest[0] else if tail != [] then tail[0] else more[0];
    }
  }

  lemma EmptyListing(rows: seq<OfflineRow>, offline: OfflineTable, c: ClientId)
    requires IsListing(rows, offline, c)
    ensures rows == [] <==> RowsOf(offline, c) == {}
  {
    assert |multiset(rows)| == |rows|;
    assert |multiset(RowsOf(offline, c))| == |RowsOf(offline, c)|;
  }

  // ---- A handshake that can never succeed ----

  ghost predicate PublishIsSecond(stream: seq<Packet>) {
    |stream| >= 2 && stream[1].kind == Publish
  }

  ghost predicate NoConnAck(stream: seq<Packet>) {
    stream != [] ==> stream[0].kind != ConnAck
  }

  /** On connection k of client c, a PUBLISH arrives right after CONNACK, or will, or CONNACK did not
      arrive and never will. */
  ghost predicate StalledOn(conns: map<ConnId, Connection>, stream: seq<Packet>, k: ConnId, c: ClientId) {
    && (k !in conns ==> stream == [])
    && (IsFor(conns, k, c) ==>
          match conns[k].phase
          case Replaying => |stream| >= 1 && AllPublish(stream[1..])
          case Serving => PublishIsSecond(stream)
          case Ended => PublishIsSecond(stream) || NoConnAck(stream))
  }

  ghost predicate Stalled(b: Broker, k: ConnId, c: ClientId) {
    StalledOn(b.hub.conns, Stream(b.trace.sends, k), k, c)
  }

  lemma StalledExtends(conns: map<ConnId, Connection>, conns': map<ConnId, Connection>, stream: seq<Packet>,
                       live: seq<Packet>, k: ConnId, c: ClientId)
    requires StalledOn(conns, stream, k, c) && AllPublish(live) && (k !in conns ==> live == [])
    requires (k in conns <==> k in conns') && (k in conns ==> conns'[k] == conns[k])
    ensures StalledOn(conns', stream + live, k, c)
  {
    if |stream| >= 1 {
      assert (stream + live)[1..] == stream[1..] + live;
    }
  }

  lemma OtherConns(b: Broker, e: Event, k: ConnId)
    requires e.conn != k
    ensures k in Step(b, e).hub.conns <==> k in b.hub.conns
    ensures k in b.hub.conns ==> Step(b, e).hub.conns[k] == b.hub.conns[k]
  {
    StepHub(b, e);
  }

  /** A replay on k lists its rows, and its first send succeeds. */
  ghost predicate Clean(e: Event, k: ConnId) {
    e.conn == k && e.Replay? ==> e.rows.Some? && (e.rows.value == [] || e.sent >= 1)
  }

  lemma StalledReplay(b: Broker, e: Event, c: ClientId, id: PacketId)
    requires Stalled(b, e.conn, c) && e.Replay? && Enabled(b, e) && Clean(e, e.conn) && IsFor(b.hub.conns, e.conn, c)
    requires id in b.tables.offline && b.tables.offline[id].clientId == c
    ensures Stalled(Step(b, e), e.conn, c)
  {
    ReplayContains(b, e, id);
    ReplayAppends(b, e);
    StepHub(b, e);
    ReplayComesSecond(Stream(b.trace.sends, e.conn), PublishAll(e.rows.value)[..e.sent]);
  }

  lemma ReplayComesSecond(stream: seq<Packet>, replayed: seq<Packet>)
    requires |stream| >= 1 && AllPublish(stream[1..]) && AllPublish(replayed) && replayed != []
    ensures PublishIsSecond(stream + replayed)
  {
    if |stream| == 1 {
      assert (stream + replayed)[1] == replayed[0];
    } else {
      assert (stream + replayed)[1] == stream[1..][0];
    }
  }

  lemma LongerStalls(stream: seq<Packet>, more: seq<Packet>)
    ensures PublishIsSecond(stream) ==> PublishIsSecond(stream + more)
  {
  }

  lemma StalledOwn(b: Broker, e: Event, k: ConnId, c: ClientId, id: PacketId)
    requires Stalled(b, k, c) && e.conn == k && Enabled(b, e) && Clean(e, k)
    requires id in b.tables.offline && b.tables.offline[id].clientId == c
    ensures Stalled(Step(b, e), k, c)
  {
    StepHub(b, e);
    match e {
      case Accept(_, hello, claims, _, _) =>
        if Acceptable(hello, claims) {
          var tail := AcceptAppends(b, e);
        }
      case Replay(_, _, _) =>
        if IsFor(b.hub.conns, k, c) {
          StalledReplay(b, e, c, id);
        }
      case Deliver(_, _, _) =>
        var more := StreamGrows(b, e, k);
        LongerStalls(Stream(b.trace.sends, k), more);
      case Lost(_) =>
        var more := StreamGrows(b, e, k);
        LongerStalls(Stream(b.trace.sends, k), more);
    }
  }

  lemma StalledOther(b: Broker, e: Event, k: ConnId, c: ClientId)
    requires Stalled(b, k, c) && e.conn != k
    requires k !in b.hub.conns ==> Stream(Step(b, e).trace.sends, k) == []
    ensures Stalled(Step(b, e), k, c)
  {
    OtherConns(b, e, k);
    var live := OthersOnlyPublish(b, e, k);
    StalledExtends(b.hub.conns, Step(b, e).hub.conns, Stream(b.trace.sends, k), live, k, c);
  }

  lemma {:induction false} NothingArrives(sends: seq<Sent>, k: ConnId)
    requires forall s :: s in sends ==> s.conn != k
    ensures Stream(sends, k) == []
  {
    if sends != [] {
      var front, last := sends[..|sends| - 1], sends[|sends| - 1];
      assert sends == front + [last];
      NothingArrives(front, k);
    }
  }

  lemma StillUnknown(b: Broker, e: Event, k: ConnId)
    requires Inv(b) && Known(b) && e.conn != k && k !in b.hub.conns
    ensures Stream(Step(b, e).trace.sends, k) == []
  {
    KnownStep(b, e);
    StepHub(b, e);
    NothingArrives(Step(b, e).trace.sends, k);
  }

  lemma StalledStep(b: Broker, e: Event, k: ConnId, c: ClientId, id: PacketId)
    requires Inv(b) && Known(b) && Stalled(b, k, c) && Clean(e, k)
    requires id in b.tables.offline && b.tables.offline[id].clientId == c
    ensures Stalled(Step(b, e), k, c)
  {
    if Enabled(b, e) {
      if e.conn == k {
        StalledOwn(b, e, k, c, id);
      } else {
        if k !in b.hub.conns {
          StillUnknown(b, e, k);
        }
        StalledOther(b, e, k, c);
      }
    }
  }

  lemma {:induction false} RunStalled(b0: Broker, history: seq<Event>, events: seq<Event>, k: ConnId, c: ClientId,
                                      id: PacketId)
    requires Init(b0)
    requires var b := Run(b0, history);
             && k !in b.hub.conns && id in b.tables.offline && b.tables.offline[id].clientId == c
             && NeverRemoved(b, events, id)
    requires forall e :: e in events ==> Clean(e, k)
    ensures Stalled(Run(Run(b0, history), events), k, c)
  {
    var b := Run(b0, history);
    if events == [] {
      RunKnown(b0, history);
      NothingArrives(b.trace.sends, k);
    } else {
      var n := |events| - 1;
      var front := events[..n];
      assert forall i :: 0 <= i < n ==> front[..i] == events[..i];
      assert events[n] in events && forall e :: e in front ==> e in events;
      RunStalled(b0, history, front, k, c, id);
      KeptWhileNotRemoved(b, front, id);
      RunConcat(b0, history, front);
      RunInv(b0, history + front);
      RunKnown(b0, history + front);
      StalledStep(Run(b, front), events[n], k, c, id);
    }
  }

  lemma StalledGivesUp(conns: map<ConnId, Connection>, stream: seq<Packet>, k: ConnId, c: ClientId, a: Attempt)
    requires StalledOn(conns, stream, k, c) && IsFor(conns, k, c) && a.inbound <= stream
    ensures !ReachesConsume(a)
  {
    if |a.inbound| >= 2 {
      assert a.inbound[0] == stream[0] && a.inbound[1] == stream[1];
      assert stream[1] == stream[1..][0];
    }
  }

  /** While a row of the bridge's client id is queued and nobody acknowledges its id, every retry, on
      whatever new connection, whose replay reads the queue and gets its first packet out finds a
      PUBLISH where it expects SUBACK: it gives up before consume, acknowledges nothing, and the row
      stays. */
  lemma EveryRetryStalls(b0: Broker, history: seq<Event>, events: seq<Event>, k: ConnId, c: ClientId, id: PacketId,
                         a: Attempt)
    requires Init(b0)
    requires var b := Run(b0, history);
             && k !in b.hub.conns && id in b.tables.offline && b.tables.offline[id].clientId == c
             && NeverRemoved(b, events, id)
    requires forall e :: e in events ==> Clean(e, k)
    requires IsFor(Run(Run(b0, history), events).hub.conns, k, c)
    requires a.inbound <= Stream(Run(Run(b0, history), events).trace.sends, k)
    ensures !ReachesConsume(a) && Outcome(a) == Consumed([], [], false)
    ensures id in Run(Run(b0, history), events).tables.offline
  {
    RunStalled(b0, history, events, k, c, id);
    KeptWhileNotRemoved(Run(b0, history), events, id);
    var b := Run(Run(b0, history), events);
    StalledGivesUp(b.hub.conns, Stream(b.trace.sends, k), k, c, a);
  }
}
