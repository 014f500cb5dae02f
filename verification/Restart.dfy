/** Restarts of the broker: the database survives, sessions and subscriptions do not. */
module Restart {
  import opened Types
  import opened Routing
  import opened StateMachine
  import opened Invariants
  import opened Durability
  import opened SessionTheorems
  import opened Provenance
  import opened History

  /** A new broker on the database the old one left. */
  function Restarted(b: Broker): Broker {
    Broker(Gate(b.gate.limits, map[]), Hub(map[], map[], map[]), b.tables,
           Trace([], [], Metrics(0, 0, 0, 0, 0, 0, 0, 0, 0)))
  }

  /** The state after several lives of the broker, each started on what the one before left. */
  ghost function Lives(b: Broker, lives: seq<seq<Event>>): Broker {
    if lives == [] then b else Run(Restarted(Lives(b, lives[..|lives| - 1])), lives[|lives| - 1])
  }

  /** The state in which life j starts. */
  ghost function StartOf(b: Broker, lives: seq<seq<Event>>, j: nat): Broker
    requires j <= |lives|
  {
    Restarted(Lives(b, lives[..j]))
  }

  /** Every life starts in an initial state, so the theorems about runs hold of each of them. */
  lemma {:induction false} EveryLifeStartsAfresh(b: Broker, lives: seq<seq<Event>>)
    requires TablesOk(b.tables)
    ensures Init(Restarted(Lives(b, lives)))
  {
    if lives != [] {
      var front, last := lives[..|lives| - 1], lives[|lives| - 1];
      EveryLifeStartsAfresh(b, front);
      RunInv(Restarted(Lives(b, front)), last);
    }
  }

  // ---- What survives ----

  /** No life deletes the row of `id`. */
  ghost predicate NeverRemovedInLives(b: Broker, lives: seq<seq<Event>>, id: PacketId) {
    forall j :: 0 <= j < |lives| ==> NeverRemoved(StartOf(b, lives, j), lives[j], id)
  }

  /** The row of `id` is queued at every point of every life. */
  ghost predicate AlwaysQueuedInLives(b: Broker, lives: seq<seq<Event>>, id: PacketId) {
    forall j :: 0 <= j < |lives| ==> AlwaysQueued(StartOf(b, lives, j), lives[j], id)
  }

  lemma LivesSnoc(b: Broker, front: seq<seq<Event>>, last: seq<Event>, id: PacketId)
    ensures Lives(b, front + [last]) == Run(Restarted(Lives(b, front)), last)
    ensures NeverRemovedInLives(b, front + [last], id) <==>
              NeverRemovedInLives(b, front, id) && NeverRemoved(Restarted(Lives(b, front)), last, id)
    ensures AlwaysQueuedInLives(b, front + [last], id) <==>
              AlwaysQueuedInLives(b, front, id) && AlwaysQueued(Restarted(Lives(b, front)), last, id)
  {
    var lives := front + [last];
    assert lives[..|front|] == front && lives[|front|] == last;
    assert forall j :: 0 <= j < |front| ==> lives[..j] == front[..j] && lives[j] == front[j];
  }

  /** A queued row outlives every restart: over any lives it is queued throughout exactly when no
      admitted PUBACK in any of them deletes it, and at their end it is unchanged. */
  lemma {:induction false} RowOutlivesRestarts(b: Broker, lives: seq<seq<Event>>, id: PacketId)
    requires id in b.tables.offline
    ensures AlwaysQueuedInLives(b, lives, id) <==> NeverRemovedInLives(b, lives, id)
    ensures NeverRemovedInLives(b, lives, id) ==>
              id in Lives(b, lives).tables.offline && Lives(b, lives).tables.offline[id] == b.tables.offline[id]
  {
    if lives != [] {
      var front, last := lives[..|lives| - 1], lives[|lives| - 1];
      assert lives == front + [last];
      RowOutlivesRestarts(b, front, id);
      LivesSnoc(b, front, last, id);
      if NeverRemovedInLives(b, front, id) {
        RowLifetime(Restarted(Lives(b, front)), last, id);
        assert last[..|last|] == last;
      }
    }
  }

  /** Some life processed a PUBACK for `id`. */
  ghost predicate MarkedInLives(b: Broker, lives: seq<seq<Event>>, id: PacketId) {
    exists j :: MarkedInLife(b, lives, j, id)
  }

  ghost predicate MarkedInLife(b: Broker, lives: seq<seq<Event>>, j: int, id: PacketId) {
    0 <= j < |lives| && MarkedIn(StartOf(b, lives, j), lives[j], id)
  }

  lemma MarkedInLifeSnoc(b: Broker, front: seq<seq<Event>>, last: seq<Event>, j: int, id: PacketId)
    ensures MarkedInLife(b, front + [last], j, id) <==>
              if j == |front| then MarkedIn(Restarted(Lives(b, front)), last, id) else MarkedInLife(b, front, j, id)
  {
    if 0 <= j <= |front| {
      assert (front + [last])[..j] == front[..j];
    }
    assert front[..|front|] == front;
  }

  lemma MarkedInLivesSnoc(b: Broker, front: seq<seq<Event>>, last: seq<Event>, id: PacketId)
    ensures MarkedInLives(b, front + [last], id) <==>
              MarkedInLives(b, front, id) || MarkedIn(Restarted(Lives(b, front)), last, id)
  {
    MarkedInLifeSnoc(b, front, last, |front|, id);
    forall j ensures j != |front| ==> (MarkedInLife(b, front + [last], j, id) <==> MarkedInLife(b, front, j, id)) {
      MarkedInLifeSnoc(b, front, last, j, id);
    }
    assert !MarkedInLife(b, front, |front|, id);
  }

  /** A stored message outlives every restart unchanged, except that its acknowledged flag turns true,
      for good, exactly when some life processes a PUBACK with its id. */
  lemma {:induction false} MessageOutlivesRestarts(b: Broker, lives: seq<seq<Event>>, id: PacketId)
    requires id in b.tables.messages
    ensures id in Lives(b, lives).tables.messages
    ensures Lives(b, lives).tables.messages[id] ==
            b.tables.messages[id].(acknowledged := b.tables.messages[id].acknowledged || MarkedInLives(b, lives, id))
  {
    if lives != [] {
      var front, last := lives[..|lives| - 1], lives[|lives| - 1];
      assert lives == front + [last];
      MessageOutlivesRestarts(b, front, id);
      StoredForever(Restarted(Lives(b, front)), last, id);
      MarkedInLivesSnoc(b, front, last, id);
    }
  }

  // ---- What does not ----

  /** The queue grows for a client only by messages it asked for in this life. */
  lemma NewRowWasAskedFor(b: Broker, events: seq<Event>, e: Event, id: PacketId)
    requires Init(b)
    requires id !in Run(b, events).tables.offline && id in Step(Run(b, events), e).tables.offline
    ensures Saves(Run(b, events), e)
    ensures AskedFor(b, events, Step(Run(b, events), e).tables.offline[id].clientId, e.packet.topic)
  {
    RunInv(b, events);
    OldOrNewRow(Run(b, events), e, id);
    var m, sub :| IsNewFor(Run(b, events), e, Step(Run(b, events), e).tables.offline[id], m, sub);
    MatchedExactly(b, events, e, m.clientId);
  }

  lemma {:induction false} NothingRequested(b: Broker, events: seq<Event>, c: ClientId)
    requires forall i :: 0 <= i < |events| ==> !Subscribes(Run(b, events[..i]), events[i], c)
    ensures Requests(b, events, c) == []
  {
    if events != [] {
      var n := |events| - 1;
      assert forall i :: 0 <= i < n ==> events[..n][..i] == events[..i];
      NothingRequested(b, events[..n], c);
    }
  }

  /** A restart loses the subscribers: whatever client c subscribed to before, as long as it does not
      subscribe again, no row is queued for it that was not there before the restart. */
  lemma {:induction false} ForgottenAfterRestart(b0: Broker, events: seq<Event>, c: ClientId, id: PacketId)
    requires TablesOk(b0.tables)
    requires var b := Restarted(b0);
             forall i :: 0 <= i < |events| ==> !Subscribes(Run(b, events[..i]), events[i], c)
    ensures var q := Run(Restarted(b0), events).tables.offline;
            id in q && q[id].clientId == c ==> id in b0.tables.offline && q[id] == b0.tables.offline[id]
  {
    var b := Restarted(b0);
    if events != [] {
      var n := |events| - 1;
      var front, last := events[..n], events[n];
      assert forall i :: 0 <= i < n ==> front[..i] == events[..i];
      ForgottenAfterRestart(b0, front, c, id);
      NothingRequested(b, front, c);
      if id in Run(b, front).tables.offline {
        RowKept(Run(b, front), last, id);
      } else if id in Run(b, events).tables.offline {
        NewRowWasAskedFor(b, front, last, id);
      }
    }
  }
}
