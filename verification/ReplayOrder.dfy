/** The order in which a reconnecting client receives its queue. */
module ReplayOrder {
  import opened Types
  import opened Subscriptions
  import opened Sessions
  import opened Storage
  import opened Routing
  import opened StateMachine
  import opened Steps
  import opened Durability

  function InsertOf(op: QueueOp): seq<OfflineRow> {
    if IsInsert(op) then [op.row] else []
  }

  /** The rows that were really inserted, in the order of their insertion. */
  function Inserted(ops: seq<QueueOp>): seq<OfflineRow> {
    FlatMap(ops, InsertOf)
  }

  function Time(): OfflineRow -> int {
    (row: OfflineRow) => row.availableAt
  }

  ghost predicate Increasing(rows: seq<OfflineRow>) {
    IncreasingBy(rows, Time())
  }

  // ---- Every queued row is older than the run or was inserted in it ----

  ghost predicate Recorded(offline: OfflineTable, older: seq<OfflineRow>, ops: seq<QueueOp>) {
    forall id :: id in offline ==> offline[id] in older + Inserted(ops)
  }

  lemma {:induction false} FanoutRecords(f: Fanout, sessions: SessionTable, packet: Packet, matches: seq<Match>,
                                         env: RouteEnv, older: seq<OfflineRow>)
    requires Recorded(f.offline, older, f.trace.ops)
    ensures var g := RouteAll(f, sessions, packet, matches, env);
            Recorded(g.offline, older, g.trace.ops)
  {
    if matches != [] {
      var front, last := matches[..|matches| - 1], matches[|matches| - 1];
      FanoutRecords(f, sessions, packet, front, env, older);
      var g := RouteAll(f, sessions, packet, front, env);
      var h := RouteOne(g, sessions, packet, last, env);
      if h.trace.ops != g.trace.ops {
        FlatMapSnoc(g.trace.ops, h.trace.ops[|g.trace.ops|], InsertOf);
      }
    }
  }

  lemma StepRecords(b: Broker, e: Event, older: seq<OfflineRow>)
    requires Recorded(b.tables.offline, older, b.trace.ops)
    ensures Recorded(Step(b, e).tables.offline, older, Step(b, e).trace.ops)
  {
    StepTables(b, e);
    StepOps(b, e);
    if Saves(b, e) {
      var p := SavedPacket(b, e);
      FanoutRecords(Fanout(b.tables.offline, Stored(CountedIn(b, e.conn, e.env.now), p).trace, 0, false),
                    b.hub.sessions, p, e.env.matches, e.env.route, older);
    } else if e.Deliver? {
      FlatMapSnoc(b.trace.ops, Acked(e.packet.packetId, e.packet.packetId in b.tables.offline), InsertOf);
    }
  }

  /** Over every run, a queued row was queued before the run or inserted by it, unchanged. */
  lemma {:induction false} RunRecords(b: Broker, events: seq<Event>, older: seq<OfflineRow>)
    requires Init(b) && forall id :: id in b.tables.offline ==> b.tables.offline[id] in older
    ensures Recorded(Run(b, events).tables.offline, older, Run(b, events).trace.ops)
  {
    if events != [] {
      RunRecords(b, events[..|events| - 1], older);
      StepRecords(Run(b, events[..|events| - 1]), events[|events| - 1], older);
    }
  }

  // ---- A sorted listing is unique ----

  /** A sequence that lists a set repeats nothing. */
  lemma ListedOnce(rows: seq<OfflineRow>, all: set<OfflineRow>, i: nat, j: nat)
    requires multiset(rows) == multiset(all) && i < j < |rows|
    ensures rows[i] != rows[j]
  {
    var a, b := rows[..j], rows[j..];
    assert rows == a + b;
    assert a[i] in a && b[0] in b;
    assert multiset(rows) == multiset(a) + multiset(b);
    assert multiset(a)[rows[i]] >= 1 && multiset(b)[rows[j]] >= 1;
    assert multiset(rows)[rows[i]] == multiset(a)[rows[i]] + multiset(b)[rows[i]] <= 1;
  }

  lemma ListingIncreasing(rows: seq<OfflineRow>, offline: OfflineTable, clientId: ClientId, history: seq<OfflineRow>)
    requires IsListing(rows, offline, clientId) && Increasing(history)
    requires forall id :: id in offline ==> offline[id] in history
    ensures Increasing(rows)
  {
    ListingMembers(rows, offline, clientId);
    forall i, j | 0 <= i < j < |rows| ensures rows[i].availableAt < rows[j].availableAt {
      ListedOnce(rows, RowsOf(offline, clientId), i, j);
      assert rows[i] in offline.Values && rows[j] in offline.Values;
      assert rows[i] in history && rows[j] in history;
      var m :| 0 <= m < |history| && history[m] == rows[i];
      var n :| 0 <= n < |history| && history[n] == rows[j];
    }
  }

  /** Is the row still queued, for this client? */
  function Surviving(offline: OfflineTable, clientId: ClientId): OfflineRow -> bool {
    (row: OfflineRow) => row in offline.Values && row.clientId == clientId
  }

  /** The sends are those of the rows, in order, up to and including number `sent`, which fails. */
  ghost predicate IsReplayed(sends: seq<Sent>, conn: ConnId, rows: seq<OfflineRow>, sent: nat) {
    && |sends| == (if sent < |rows| then sent + 1 else |rows|)
    && forall i :: 0 <= i < |sends| ==>
         var row := rows[i];
         && sends[i].conn == conn && sends[i].via == Replayed && (sends[i].ok <==> i < sent)
         && sends[i].packet ==
            Packet(Publish, row.packetId, "", row.topic, row.qos, row.payload, row.enqueuedAt, [], false, NoCode)
  }

  lemma ReplaySendsExactly(conn: ConnId, rows: seq<OfflineRow>, sent: nat)
    ensures IsReplayed(ReplaySends(conn, PublishAll(rows), sent), conn, rows, sent)
  {
  }

  /** Replay in order: over every run, from whatever rows an earlier broker left, listed in `older`, if
      the enqueue times strictly increase through the older rows and the inserted ones, a reconnecting
      client is listed exactly its surviving rows in the order they were enqueued, and the replay tries
      them in that order up to and including the first send that fails, as PUBLISH packets with the
      row's id, topic, QoS, payload and enqueue time. */
  lemma ReplayInOrder(b0: Broker, events: seq<Event>, e: Event, older: seq<OfflineRow>)
    requires Init(b0) && forall id :: id in b0.tables.offline ==> b0.tables.offline[id] in older
    requires Increasing(older + Inserted(Run(b0, events).trace.ops))
    requires e.Replay? && Enabled(Run(b0, events), e) && e.rows.Some?
    ensures var b := Run(b0, events);
            var rows := Filter(older + Inserted(b.trace.ops),
                               Surviving(b.tables.offline, b.hub.conns[e.conn].clientId));
            && e.rows.value == rows
            && IsReplayed(NewSends(b, e), e.conn, rows, e.sent)
            && Step(b, e).trace.sends == b.trace.sends + NewSends(b, e)
  {
    var b := Run(b0, events);
    var c, q, history := b.hub.conns[e.conn].clientId, b.tables.offline, older + Inserted(b.trace.ops);
    RunRecords(b0, events, older);
    ListingIncreasing(e.rows.value, q, c, history);
    ListingMembers(e.rows.value, q, c);
    FilterIncreasing(history, Time(), Surviving(q, c));
    assert SetOf(e.rows.value) == SetOf(Filter(history, Surviving(q, c)));
    IncreasingUnique(e.rows.value, Filter(history, Surviving(q, c)), Time());
    ReplaySendsExactly(e.conn, e.rows.value, e.sent);
    ConcatSuffix(b.trace.sends, ReplaySends(e.conn, PublishAll(e.rows.value), e.sent));
  }
}
