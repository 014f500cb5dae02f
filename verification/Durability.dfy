/** QoS 1 durability: what an acknowledged PUBLISH guarantees, and how long a queued row lives. */
module Durability {
  import opened Types
  import opened Subscriptions
  import opened Storage
  import opened Routing
  import opened StateMachine
  import opened Invariants
  import opened Steps

  // ---- The life of a queued row ----

  /** A row survives a step unless the step is an admitted, successful PUBACK for its id; while it
      survives, nothing about it changes. */
  lemma RowKept(b: Broker, e: Event, id: PacketId)
    requires id in b.tables.offline
    ensures id in Step(b, e).tables.offline <==> !Removes(b, e, id)
    ensures id in Step(b, e).tables.offline ==> Step(b, e).tables.offline[id] == b.tables.offline[id]
  {
    StepQueue(b, e);
    StepTables(b, e);
  }

  /** The delete looks at the packet id only: an admitted PUBACK takes the row of its id from its
      owner, whoever sends it, and no row from anyone else. */
  lemma AnyClientsPubAckRemoves(b: Broker, e: Event, id: PacketId, c: ClientId)
    requires Inv(b) && id in b.tables.offline && Removes(b, e, id)
    ensures RowsOf(Step(b, e).tables.offline, c) == RowsOf(b.tables.offline, c) - {b.tables.offline[id]}
    ensures c != b.tables.offline[id].clientId ==> RowsOf(Step(b, e).tables.offline, c) == RowsOf(b.tables.offline, c)
  {
    StepTables(b, e);
    var q, q' := b.tables.offline, Step(b, e).tables.offline;
    forall row ensures row in q'.Values <==> row in q.Values && row != q[id] {
      if row in q.Values && row != q[id] {
        assert q'[row.packetId] == row;
      }
    }
  }

  ghost predicate NeverRemoved(b: Broker, events: seq<Event>, id: PacketId) {
    forall i :: 0 <= i < |events| ==> !Removes(Run(b, events[..i]), events[i], id)
  }

  ghost predicate AlwaysQueued(b: Broker, events: seq<Event>, id: PacketId) {
    forall i :: 0 <= i <= |events| ==> id in Run(b, events[..i]).tables.offline
  }

  lemma RunAt(b: Broker, events: seq<Event>, i: nat)
    requires i < |events|
    ensures Run(b, events[..i + 1]) == Step(Run(b, events[..i]), events[i])
  {
    assert events[..i + 1] == events[..i] + [events[i]];
    RunSnoc(b, events[..i], events[i]);
  }

  lemma {:induction false} KeptWhileNotRemoved(b: Broker, events: seq<Event>, id: PacketId)
    requires id in b.tables.offline && NeverRemoved(b, events, id)
    ensures id in Run(b, events).tables.offline
    ensures Run(b, events).tables.offline[id] == b.tables.offline[id]
  {
    if events != [] {
      var n := |events| - 1;
      var front := events[..n];
      forall i | 0 <= i < n ensures !Removes(Run(b, front[..i]), front[i], id) {
        assert front[..i] == events[..i];
      }
      KeptWhileNotRemoved(b, front, id);
      RowKept(Run(b, front), events[n], id);
    }
  }

  /** Over every run, a queued row stays queued throughout exactly when no admitted PUBACK for its
      id deletes it; and as long as it stays, its owner, topic, QoS, payload and times are fixed. */
  lemma RowLifetime(b: Broker, events: seq<Event>, id: PacketId)
    requires id in b.tables.offline
    ensures AlwaysQueued(b, events, id) <==> NeverRemoved(b, events, id)
    ensures AlwaysQueued(b, events, id) ==>
              forall i :: 0 <= i <= |events| ==> Run(b, events[..i]).tables.offline[id] == b.tables.offline[id]
  {
    if NeverRemoved(b, events, id) {
      forall i | 0 <= i <= |events|
        ensures id in Run(b, events[..i]).tables.offline
        ensures Run(b, events[..i]).tables.offline[id] == b.tables.offline[id]
      {
        forall j | 0 <= j < i ensures !Removes(Run(b, events[..i][..j]), events[..i][j], id) {
          assert events[..i][..j] == events[..j];
        }
        KeptWhileNotRemoved(b, events[..i], id);
      }
    }
    if AlwaysQueued(b, events, id) {
      forall i | 0 <= i < |events| ensures !Removes(Run(b, events[..i]), events[i], id) {
        RunAt(b, events, i);
        RowKept(Run(b, events[..i]), events[i], id);
      }
    }
  }

  // ---- What PUBACK means ----

  /** The clients an accepted PUBLISH leaves to the queue. */
  ghost function Needing(b: Broker, e: Event): set<ClientId>
    requires Saves(b, e)
  {
    set m | m in e.env.matches && NeedsQueue(b.hub.sessions, SavedPacket(b, e), e.env.route, m) :: m.clientId
  }

  /** The sends a step adds. */
  ghost function NewSends(b: Broker, e: Event): seq<Sent> {
    var before, after := b.trace.sends, Step(b, e).trace.sends;
    if |before| <= |after| then after[|before|..] else []
  }

  lemma NewSendsExplained(b: Broker, e: Event)
    ensures Step(b, e).trace.sends == b.trace.sends + NewSends(b, e)
    ensures forall s :: s in NewSends(b, e) ==> Explains(b, e, s)
  {
    SendsExplained(b, e);
    var before, after := b.trace.sends, Step(b, e).trace.sends;
    forall s | s in NewSends(b, e) ensures Explains(b, e, s) {
      var i :| 0 <= i < |NewSends(b, e)| && NewSends(b, e)[i] == s;
      assert Explains(b, e, after[|before| + i]);
    }
  }

  /** How the match of subscription `s` of client `c` is covered after the step. */
  ghost predicate Covered(b: Broker, e: Event, c: ClientId, s: Subscription)
    requires Saves(b, e) && c in b.hub.sessions
  {
    || (b.hub.sessions[c].conn.Some?
        && Sent(b.hub.sessions[c].conn.value, CopyFor(b, e, s), true, Routed) in NewSends(b, e))
    || GrantedQos(e, s) <= 0
    || StoredId(e) in Step(b, e).tables.offline
  }

  /** A fan-out without error puts the attempts of its matches right after what was sent before. */
  lemma RoutesAttempts(b: Broker, e: Event)
    requires Saves(b, e) && !FanoutBy(b, e).failed
    ensures FlatMap(e.env.matches, Attempts(b.hub.sessions, SavedPacket(b, e), e.env.route)) <= NewSends(b, e)
  {
    var p, sessions, route := SavedPacket(b, e), b.hub.sessions, e.env.route;
    var f := Fanout(b.tables.offline, Stored(CountedIn(b, e.conn, e.env.now), p).trace, 0, false);
    FanoutSends(f, sessions, p, e.env.matches, route);
    StepSends(b, e);
    var routed := FlatMap(e.env.matches, Attempts(sessions, p, route));
    ConcatAssoc(b.trace.sends, routed, Replies(b, e));
    ConcatSuffix(b.trace.sends, routed + Replies(b, e));
  }

  lemma SentIsLogged(b: Broker, e: Event, m: Match)
    requires Acknowledges(b, e) && m in e.env.matches && WasSent(b.hub.sessions, e.env.route, m)
    ensures Sent(b.hub.sessions[m.clientId].conn.value, Outbound(SavedPacket(b, e), m), true, Routed) in NewSends(b, e)
  {
    var p, sessions, route := SavedPacket(b, e), b.hub.sessions, e.env.route;
    RoutesAttempts(b, e);
    var s := Sent(sessions[m.clientId].conn.value, Outbound(p, m), true, Routed);
    assert s in Attempts(sessions, p, route)(m);
    FlatMapMember(e.env.matches, Attempts(sessions, p, route), s);
  }

  /** PUBACK is put on the wire exactly for an accepted, saved, fully routed PUBLISH of positive QoS. */
  lemma PubAckExactly(b: Broker, e: Event)
    ensures (exists s :: s in NewSends(b, e) && s.packet.kind.PubAck?) <==> Acknowledges(b, e)
  {
    NewSendsExplained(b, e);
    StepSends(b, e);
    if Acknowledges(b, e) {
      var more := Replies(b, e);
      assert more[0].packet.kind.PubAck?;
      RoutedExplained(b, e);
      var after := Step(b, e).trace.sends;
      assert after[|BeforeReplies(b, e)|] == more[0];
      assert NewSends(b, e)[|BeforeReplies(b, e)| - |b.trace.sends|] == more[0];
    } else {
      forall s | s in NewSends(b, e) ensures !s.packet.kind.PubAck? {
        if !s.via.Reply? {
          PublishKinds(b, e, s);
        }
      }
    }
  }

  /** Whatever is routed or replayed is a PUBLISH. */
  lemma PublishKinds(b: Broker, e: Event, s: Sent)
    requires Explains(b, e, s) && !s.via.Reply?
    ensures s.packet.kind.Publish?
  {
    if s.via.Routed? {
      var m :| m in e.env.matches && Attempts(b.hub.sessions, SavedPacket(b, e), e.env.route)(m) == [s];
      assert Attempts(b.hub.sessions, SavedPacket(b, e), e.env.route)(m)[0] == s;
    }
  }

  /** Acknowledged means durable: when handlePublish answers PUBACK for p, the message table holds
      p (or the row an earlier packet with its id left there), and every registered subscription whose
      filter accepts p's topic belongs to a client with a session and was sent p, or asks for no QoS,
      or the queue holds p's id. */
  lemma AcknowledgedMeansDurable(b: Broker, e: Event, c: ClientId, s: Subscription)
    requires Inv(b) && Acknowledges(b, e)
    requires IsSubscriber(b, c, s, e.packet.topic)
    ensures var id, rows, rows' := StoredId(e), b.tables.messages, Step(b, e).tables.messages;
            && id in rows'
            && if id in rows then rows'[id] == rows[id]
               else && rows'[id].topic == e.packet.topic && rows'[id].qos == e.packet.qos
                    && rows'[id].payload == (if e.packet.payload == "" then "{}" else e.packet.payload)
                    && rows'[id].clientId == b.hub.conns[e.conn].clientId
    ensures c in b.hub.sessions && Covered(b, e, c, s)
  {
    var p, m := SavedPacket(b, e), Hit(c, s);
    SaveTables(b, e);
    SubscriberIsMatch(b, e, c, s);
    if WasSent(b.hub.sessions, e.env.route, m) {
      SentIsLogged(b, e, m);
    } else if Outbound(p, m).qos > 0 {
      var f := Fanout(b.tables.offline, Stored(CountedIn(b, e.conn, e.env.now), p).trace, 0, false);
      NeededIsQueued(f, b.hub.sessions, p, e.env.matches, e.env.route, m);
    }
  }

  /** The queue grows by one row under the saved packet's id, for a match that needs the queue. */
  ghost predicate IsNewRow(b: Broker, e: Event, m: Match, q: OfflineTable, q': OfflineTable)
    requires Saves(b, e)
  {
    var p := SavedPacket(b, e);
    && m in e.env.matches && NeedsQueue(b.hub.sessions, p, e.env.route, m) && m.clientId in Needing(b, e)
    && q' == q[p.packetId := OwnedRow(b.hub.sessions, p, e.env.route, m)] && q'[p.packetId].clientId == m.clientId
  }

  /** The queue's answer to the clients that needed it: the id is there, under its earlier row if it
      had one, and otherwise under a row made for one of them. */
  lemma WhoOwnsTheRow(b: Broker, e: Event)
    requires Inv(b) && Acknowledges(b, e) && Needing(b, e) != {}
    ensures var id, q, q' := SavedPacket(b, e).packetId, b.tables.offline, Step(b, e).tables.offline;
            && id in q'
            && (id in q ==> q' == q)
            && (id !in q ==>
                  exists m :: IsNewRow(b, e, m, q, q'))
  {
    var p := SavedPacket(b, e);
    var c :| c in Needing(b, e);
    var m :| m in e.env.matches && NeedsQueue(b.hub.sessions, p, e.env.route, m) && m.clientId == c;
    var f := Fanout(b.tables.offline, Stored(CountedIn(b, e.conn, e.env.now), p).trace, 0, false);
    NeededIsQueued(f, b.hub.sessions, p, e.env.matches, e.env.route, m);
    FanoutQueue(f, b.hub.sessions, p, e.env.matches, e.env.route);
    SaveTables(b, e);
    var q, q' := b.tables.offline, Step(b, e).tables.offline;
    if p.packetId !in q {
      var n :| n in e.env.matches && NeedsQueue(b.hub.sessions, p, e.env.route, n)
               && q' == q[p.packetId := OwnedRow(b.hub.sessions, p, e.env.route, n)];
      assert n.clientId in Needing(b, e);
      assert IsNewRow(b, e, n, q, q');
    }
  }

  /** The row is one that the queue owes client c for the saved packet: its own, with the topic and
      payload published and the QoS of one of its matches. */
  ghost predicate IsOwed(row: OfflineRow, b: Broker, e: Event, c: ClientId)
    requires Saves(b, e)
  {
    && row.clientId == c && row.topic == e.packet.topic
    && row.payload == (if e.packet.payload == "" then "{}" else e.packet.payload)
    && exists sub :: && IsSubscriber(b, c, sub, e.packet.topic) && row.qos == GrantedQos(e, sub)
                     && NeedsQueue(b.hub.sessions, SavedPacket(b, e), e.env.route, Hit(c, sub))
  }

  /** The queue holds the saved packet for client c. */
  ghost predicate HoldsFor(q: OfflineTable, b: Broker, e: Event, c: ClientId)
    requires Saves(b, e)
  {
    StoredId(e) in q && IsOwed(q[StoredId(e)], b, e, c)
  }

  /** The specification promises every offline QoS 1 subscriber a queue entry.  With one row per
      packet id that holds for an acknowledged PUBLISH exactly when its id was free and at most one
      client needs the queue, or its id was queued for the only client that needs it, with this very
      message. */
  lemma EveryOfflineSubscriberQueuedExactly(b: Broker, e: Event)
    requires Inv(b) && Acknowledges(b, e)
    ensures var id, q, q' := SavedPacket(b, e).packetId, b.tables.offline, Step(b, e).tables.offline;
            (forall c :: c in Needing(b, e) ==> HoldsFor(q', b, e, c))
            <==> if id in q
                 then Needing(b, e) <= {q[id].clientId} && (Needing(b, e) != {} ==> IsOwed(q[id], b, e, q[id].clientId))
                 else |Needing(b, e)| <= 1
  {
    if SavedPacket(b, e).packetId in b.tables.offline {
      ServedUnderTakenId(b, e);
    } else if Needing(b, e) != {} {
      ServedUnderFreeId(b, e);
    }
  }

  lemma ServedUnderTakenId(b: Broker, e: Event)
    requires Inv(b) && Acknowledges(b, e) && SavedPacket(b, e).packetId in b.tables.offline
    ensures var row, q' := b.tables.offline[SavedPacket(b, e).packetId], Step(b, e).tables.offline;
            (forall c :: c in Needing(b, e) ==> HoldsFor(q', b, e, c))
            <==> Needing(b, e) <= {row.clientId} && (Needing(b, e) != {} ==> IsOwed(row, b, e, row.clientId))
  {
    if Needing(b, e) != {} {
      WhoOwnsTheRow(b, e);
      var x :| x in Needing(b, e);
    }
  }

  lemma ServedUnderFreeId(b: Broker, e: Event)
    requires Inv(b) && Acknowledges(b, e) && Needing(b, e) != {} && SavedPacket(b, e).packetId !in b.tables.offline
    ensures (forall c :: c in Needing(b, e) ==> HoldsFor(Step(b, e).tables.offline, b, e, c)) <==> |Needing(b, e)| <= 1
  {
    var id, q' := SavedPacket(b, e).packetId, Step(b, e).tables.offline;
    WhoOwnsTheRow(b, e);
    var m :| IsNewRow(b, e, m, b.tables.offline, q');
    var sub := MatchIsSubscriber(b, e, m);
    assert q'[id].qos == GrantedQos(e, sub);
    assert IsOwed(q'[id], b, e, m.clientId);
    OneOwner(Needing(b, e), m.clientId);
  }

  lemma OneOwner(s: set<ClientId>, owner: ClientId)
    requires owner in s
    ensures |s| <= 1 <==> forall c :: c in s ==> c == owner
  {
    SubsetSize({owner}, s);
    if forall c :: c in s ==> c == owner {
      assert s == {owner};
    }
  }

  lemma SubsetSize(s: set<ClientId>, t: set<ClientId>)
    requires s <= t
    ensures |s| <= |t| && |t - s| == |t| - |s|
  {
    assert t == s + (t - s);
  }

  // ---- At least once, across reconnects ----

  /** From PUBACK to replay: if exactly one client needed the queue for a fresh packet id, then at
      every later replay to that client, with no PUBACK deleting the id in between, the listing
      contains the packet, and a replay without failures sends it: under its id, with the topic and
      payload published, and the lower of the QoS published and the QoS one of the client's
      subscriptions asked for. */
  lemma AcknowledgedIsReplayed(b0: Broker, history: seq<Event>, e: Event, between: seq<Event>, r: Event, c: ClientId)
    returns (sub: Subscription, time: int)
    requires Init(b0)
    requires var b := Run(b0, history);
             && Acknowledges(b, e) && Needing(b, e) == {c} && StoredId(e) !in b.tables.offline
             && NeverRemoved(Step(b, e), between, StoredId(e))
    requires var b2 := Run(Step(Run(b0, history), e), between);
             r.Replay? && Enabled(b2, r) && b2.hub.conns[r.conn].clientId == c && r.rows.Some?
    ensures IsSubscriber(Run(b0, history), c, sub, e.packet.topic)
    ensures var payload := if e.packet.payload == "" then "{}" else e.packet.payload;
            var qos := if e.packet.qos <= sub.qos then e.packet.qos else sub.qos;
            var p := Packet(Publish, StoredId(e), "", e.packet.topic, qos, payload, time, [], false, NoCode);
            && OfflineRow(StoredId(e), c, e.packet.topic, qos, payload, time, time) in r.rows.value
            && (r.sent == |r.rows.value| ==>
                  Sent(r.conn, p, true, Replayed) in Step(Run(Step(Run(b0, history), e), between), r).trace.sends)
  {
    var b := Run(b0, history);
    RunInv(b0, history);
    sub, time := FreshRow(b, e, c);
    KeptWhileNotRemoved(Step(b, e), between, StoredId(e));
    ReplayContains(Run(Step(b, e), between), r, StoredId(e));
  }

  lemma FreshRow(b: Broker, e: Event, c: ClientId) returns (sub: Subscription, time: int)
    requires Inv(b) && Acknowledges(b, e) && Needing(b, e) == {c}
    requires StoredId(e) !in b.tables.offline
    ensures IsSubscriber(b, c, sub, e.packet.topic) && StoredId(e) in Step(b, e).tables.offline
    ensures Step(b, e).tables.offline[StoredId(e)] ==
            OfflineRow(StoredId(e), c, e.packet.topic, GrantedQos(e, sub),
                       if e.packet.payload == "" then "{}" else e.packet.payload, time, time)
  {
    WhoOwnsTheRow(b, e);
    var m :| IsNewRow(b, e, m, b.tables.offline, Step(b, e).tables.offline);
    sub := MatchIsSubscriber(b, e, m);
    time := e.env.route.clock(m);
    assert Needing(b, e) == {m.clientId};
  }

  /** A replay lists every row of its client, and a complete one sends them all, as PUBLISH packets with
      the row's id, topic, QoS, payload and enqueue time. */
  lemma ReplayContains(b: Broker, e: Event, id: PacketId)
    requires e.Replay? && Enabled(b, e) && e.rows.Some?
    requires id in b.tables.offline && b.tables.offline[id].clientId == b.hub.conns[e.conn].clientId
    ensures b.tables.offline[id] in e.rows.value
    ensures var row := b.tables.offline[id];
            var p := Packet(Publish, row.packetId, "", row.topic, row.qos, row.payload, row.enqueuedAt, [],
                            false, NoCode);
            e.sent == |e.rows.value| ==> Sent(e.conn, p, true, Replayed) in Step(b, e).trace.sends
  {
    var row, rows := b.tables.offline[id], e.rows.value;
    ListingMembers(rows, b.tables.offline, b.hub.conns[e.conn].clientId);
    assert row in b.tables.offline.Values;
    var n :| 0 <= n < |rows| && rows[n] == row;
    if e.sent == |rows| {
      var more := ReplaySends(e.conn, PublishAll(rows), e.sent);
      assert more[n] == Sent(e.conn, PublishOf(row), true, Replayed);
      assert Step(b, e).trace.sends == b.trace.sends + more;
    }
  }
}
