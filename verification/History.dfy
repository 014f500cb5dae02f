/** The message table as a history of accepted PUBLISH packets. */
module History {
  import opened Types
  import opened Storage
  import opened StateMachine
  import opened Steps

  /** The event is an accepted PUBLISH stored under `id`. */
  ghost predicate SavesAs(b: Broker, e: Event, id: PacketId) {
    Saves(b, e) && StoredId(e) == id
  }

  ghost predicate NeverSaved(b: Broker, events: seq<Event>, id: PacketId) {
    forall i :: 0 <= i < |events| ==> !SavesAs(Run(b, events[..i]), events[i], id)
  }

  /** Some admitted PUBACK for `id` was processed successfully in the run. */
  ghost predicate MarkedIn(b: Broker, events: seq<Event>, id: PacketId) {
    exists i :: 0 <= i < |events| && Marks(Run(b, events[..i]), events[i], id)
  }

  lemma MessageStep(b: Broker, e: Event, id: PacketId)
    ensures id in Step(b, e).tables.messages <==> id in b.tables.messages || SavesAs(b, e, id)
    ensures id in b.tables.messages ==>
              Step(b, e).tables.messages[id] ==
              b.tables.messages[id].(acknowledged := b.tables.messages[id].acknowledged || Marks(b, e, id))
    ensures id !in b.tables.messages && SavesAs(b, e, id) ==>
              Step(b, e).tables.messages[id] ==
              MessageFor(SavedPacket(b, e)).(payload := Filled(SavedPacket(b, e).payload))
  {
    StepTables(b, e);
  }

  lemma {:induction false} NotSavedNotStored(b: Broker, events: seq<Event>, id: PacketId)
    requires id !in b.tables.messages && NeverSaved(b, events, id)
    ensures id !in Run(b, events).tables.messages
  {
    if events != [] {
      var n := |events| - 1;
      var front := events[..n];
      assert forall i :: 0 <= i < n ==> front[..i] == events[..i];
      NotSavedNotStored(b, front, id);
      MessageStep(Run(b, front), events[n], id);
    }
  }

  lemma MarkedSnoc(b: Broker, front: seq<Event>, last: Event, id: PacketId)
    ensures MarkedIn(b, front + [last], id) <==> MarkedIn(b, front, id) || Marks(Run(b, front), last, id)
  {
    var events := front + [last];
    assert events[..|front|] == front && events[|front|] == last;
    assert forall i :: 0 <= i < |front| ==> events[..i] == front[..i] && events[i] == front[i];
    if MarkedIn(b, front, id) {
      var i :| 0 <= i < |front| && Marks(Run(b, front[..i]), front[i], id);
      assert Marks(Run(b, events[..i]), events[i], id);
    }
    if Marks(Run(b, front), last, id) {
      assert Marks(Run(b, events[..|front|]), events[|front|], id);
    }
  }

  /** A stored message never changes, except that its acknowledged flag turns true, for good, when
      a PUBACK with its id is processed. */
  lemma {:induction false} StoredForever(b: Broker, events: seq<Event>, id: PacketId)
    requires id in b.tables.messages
    ensures id in Run(b, events).tables.messages
    ensures Run(b, events).tables.messages[id] ==
            b.tables.messages[id].(acknowledged := b.tables.messages[id].acknowledged || MarkedIn(b, events, id))
  {
    if events != [] {
      var front, last := events[..|events| - 1], events[|events| - 1];
      assert events == front + [last];
      StoredForever(b, front, id);
      MessageStep(Run(b, front), last, id);
      MarkedSnoc(b, front, last, id);
    }
  }

  /** Message history: for an id not in the table, the first accepted PUBLISH with that id fixes the
      client, topic, QoS, payload and time of its row forever, whatever else is published under the
      same id; and in any later state the row is acknowledged exactly when its QoS is 0 or a PUBACK
      with that id was processed after the insertion. */
  lemma MessageHistory(b0: Broker, history: seq<Event>, e: Event, after: seq<Event>, id: PacketId)
    requires id !in b0.tables.messages && NeverSaved(b0, history, id)
    requires SavesAs(Run(b0, history), e, id)
    ensures id in Run(b0, history + [e] + after).tables.messages
    ensures var b := Run(b0, history);
            var payload := if e.packet.payload == "" then "{}" else e.packet.payload;
            Run(b0, history + [e] + after).tables.messages[id] ==
            MessageRow(id, b.hub.conns[e.conn].clientId, e.packet.topic, e.packet.qos, payload,
                       StoredTime(e), e.packet.qos == 0 || MarkedIn(Step(b, e), after, id))
  {
    var b := Run(b0, history);
    NotSavedNotStored(b0, history, id);
    MessageStep(b, e, id);
    StoredForever(Step(b, e), after, id);
    RunSnoc(b0, history, e);
    RunConcat(b0, history + [e], after);
  }
}
