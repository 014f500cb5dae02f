/** The two message tables of api/db/store.go, with the conflict rules of their SQL, and the
    persistent queue of internal/queue/persistent/store.go on top of them.  Each statement takes a
    flag that says whether the database reports an error; a failed statement changes nothing.
    The constant columns packet_type and direction are left out. */
module Storage {
  import opened Types

  datatype MessageRow = MessageRow(
    packetId: PacketId,
    clientId: ClientId,
    topic: string,
    qos: int,
    payload: string,
    timestamp: int,
    acknowledged: bool)

  datatype OfflineRow = OfflineRow(
    packetId: PacketId,
    clientId: ClientId,
    topic: string,
    qos: int,
    payload: string,
    enqueuedAt: int,
    availableAt: int)

  type MessageTable = map<PacketId, MessageRow>
  type OfflineTable = map<PacketId, OfflineRow>

  /** One successful call on the queue: did the insert insert, did the delete delete? */
  datatype QueueOp = Enqueued(row: OfflineRow, inserted: bool) | Acked(packetId: PacketId, hit: bool)

  predicate IsInsert(op: QueueOp) { op.Enqueued? && op.inserted }

  function Filled(payload: string): string {
    if payload == "" then "{}" else payload
  }

  /** INSERT ... ON CONFLICT (packet_id) DO NOTHING, for both tables. */
  function Saved(messages: MessageTable, row: MessageRow): MessageTable {
    if row.packetId in messages then messages
    else messages[row.packetId := row.(payload := Filled(row.payload))]
  }

  function Queued(offline: OfflineTable, row: OfflineRow): OfflineTable {
    if row.packetId in offline then offline else offline[row.packetId := row]
  }

  /** UPDATE messages SET acknowledged = TRUE WHERE packet_id = id */
  function Marked(messages: MessageTable, id: PacketId): MessageTable {
    if id in messages then messages[id := messages[id].(acknowledged := true)] else messages
  }

  function Removed(offline: OfflineTable, id: PacketId): OfflineTable {
    offline - {id}
  }

  function RowsOf(offline: OfflineTable, clientId: ClientId): set<OfflineRow> {
    set row | row in offline.Values && row.clientId == clientId
  }

  ghost predicate SortedByTime(rows: seq<OfflineRow>) {
    forall i, j :: 0 <= i < j < |rows| ==> rows[i].availableAt <= rows[j].availableAt
  }

  /** SELECT ... WHERE client_id = clientId ORDER BY available_at ASC: rows with equal times may
      come in any order. */
  ghost predicate IsListing(rows: seq<OfflineRow>, offline: OfflineTable, clientId: ClientId) {
    multiset(rows) == multiset(RowsOf(offline, clientId)) && SortedByTime(rows)
  }

  lemma ListingMembers(rows: seq<OfflineRow>, offline: OfflineTable, clientId: ClientId)
    requires IsListing(rows, offline, clientId)
    ensures forall row :: row in rows <==> row in offline.Values && row.clientId == clientId
  {
    assert forall row :: row in rows <==> row in multiset(rows);
    assert forall row :: row in multiset(RowsOf(offline, clientId)) <==> row in RowsOf(offline, clientId);
  }

  class Database {
    var messages: MessageTable
    var offline: OfflineTable

    constructor (messages: MessageTable, offline: OfflineTable)
      ensures this.messages == messages && this.offline == offline
    {
      this.messages, this.offline := messages, offline;
    }

    method SaveMessage(message: MessageRow, fault: bool) returns (ok: bool)
      modifies this`messages
      ensures ok == !fault
      ensures messages == if ok then Saved(old(messages), message) else old(messages)
    {
      if fault {
        return false;
      }
      var row := message;
      if |row.payload| == 0 {
        row := row.(payload := "{}");
      }
      if row.packetId !in messages {
        messages := messages[row.packetId := row];
      }
      return true;
    }

    method MarkMessageAcknowledged(packetId: PacketId, fault: bool) returns (ok: bool)
      modifies this`messages
      ensures ok == !fault
      ensures messages == if ok then Marked(old(messages), packetId) else old(messages)
    {
      if !fault && packetId in messages {
        messages := messages[packetId := messages[packetId].(acknowledged := true)];
      }
      return !fault;
    }

    method EnqueueOfflineMessage(message: OfflineRow, fault: bool) returns (ok: bool)
      modifies this`offline
      ensures ok == !fault
      ensures offline ==
              if ok then Queued(old(offline), message.(payload := Filled(message.payload))) else old(offline)
    {
      if fault {
        return false;
      }
      var row := message;
      if |row.payload| == 0 {
        row := row.(payload := "{}");
      }
      if row.packetId !in offline {
        offline := offline[row.packetId := row];
      }
      return true;
    }

    /** ORDER BY as a selection: repeatedly take a remaining row with the least time. */
    method GetOfflineMessages(clientId: ClientId) returns (messages: seq<OfflineRow>)
      ensures IsListing(messages, offline, clientId)
    {
      messages := [];
      var all := RowsOf(offline, clientId);
      var left := all;
      while left != {}
        invariant left <= all
        invariant multiset(messages) == multiset(all - left)
        invariant SortedByTime(messages)
        invariant forall i, row :: 0 <= i < |messages| && row in left ==> messages[i].availableAt <= row.availableAt
        decreases left
      {
        var next := Earliest(left);
        assert all - (left - {next}) == (all - left) + {next};
        assert multiset((all - left) + {next}) == multiset(all - left) + multiset{next};
        messages, left := messages + [next], left - {next};
      }
      assert all - left == all;
    }

    method DeleteOfflineMessage(packetId: PacketId, fault: bool) returns (ok: bool)
      modifies this`offline
      ensures ok == !fault
      ensures offline == if ok then Removed(old(offline), packetId) else old(offline)
    {
      if !fault {
        offline := offline - {packetId};
      }
      return !fault;
    }
  }

  method Earliest(rows: set<OfflineRow>) returns (first: OfflineRow)
    requires rows != {}
    ensures first in rows
    ensures forall row :: row in rows ==> first.availableAt <= row.availableAt
  {
    first :| first in rows;
    var left := rows - {first};
    while left != {}
      invariant left <= rows && first in rows
      invariant forall row :: row in rows - left ==> first.availableAt <= row.availableAt
      decreases left
    {
      var row :| row in left;
      if row.availableAt < first.availableAt {
        first := row;
      }
      left := left - {row};
    }
  }

  /** The row Enqueue stores for a packet, with an empty payload replaced by "{}". */
  function RowFor(clientId: ClientId, packet: Packet, now: int): OfflineRow {
    OfflineRow(packet.packetId, clientId, packet.topic, packet.qos, Filled(packet.payload), now, now)
  }

  /** The packet Pending rebuilds from a row. */
  function PublishOf(row: OfflineRow): Packet {
    BLANK.(kind := Publish, packetId := row.packetId, topic := row.topic, qos := row.qos,
           payload := row.payload, timestamp := row.enqueuedAt)
  }

  function PublishAll(rows: seq<OfflineRow>): (packets: seq<Packet>)
    ensures |packets| == |rows|
    ensures forall i :: 0 <= i < |rows| ==> packets[i] == PublishOf(rows[i])
  {
    seq(|rows|, i requires 0 <= i < |rows| => PublishOf(rows[i]))
  }

  class PersistentQueue {
    const repo: Database
    ghost var ops: seq<QueueOp>

    constructor (repo: Database)
      ensures this.repo == repo && ops == []
    {
      this.repo, this.ops := repo, [];
    }

    method Enqueue(clientId: ClientId, packet: Packet, now: int, fault: bool) returns (ok: bool)
      modifies this, repo`offline
      ensures ok == !fault
      ensures !ok ==> repo.offline == old(repo.offline) && ops == old(ops)
      ensures ok ==>
                && repo.offline == Queued(old(repo.offline), RowFor(clientId, packet, now))
                && ops == old(ops) + [Enqueued(RowFor(clientId, packet, now), packet.packetId !in old(repo.offline))]
    {
      ghost var absent := packet.packetId !in repo.offline;
      ok := repo.EnqueueOfflineMessage(
        OfflineRow(packet.packetId, clientId, packet.topic, packet.qos, packet.payload, now, now), fault);
      if ok {
        ops := ops + [Enqueued(RowFor(clientId, packet, now), absent)];
      }
    }

    method Pending(clientId: ClientId, fault: bool) returns (packets: Option<seq<Packet>>, ghost rows: seq<OfflineRow>)
      ensures packets.None? <==> fault
      ensures packets.Some? ==> IsListing(rows, repo.offline, clientId) && packets.value == PublishAll(rows)
      ensures packets.Some? ==>
                && |packets.value| == |rows|
                && forall i :: 0 <= i < |rows| ==>
                     var p, row := packets.value[i], rows[i];
                     p == Packet(Publish, row.packetId, "", row.topic, row.qos, row.payload, row.enqueuedAt, [],
                                 false, NoCode)
    {
      if fault {
        return None, [];
      }
      var items := repo.GetOfflineMessages(clientId);
      var out := [];
      for n := 0 to |items|
        invariant out == PublishAll(items[..n])
      {
        var item := items[n];
        out := out + [BLANK.(kind := Publish, packetId := item.packetId, topic := item.topic, qos := item.qos,
                             payload := item.payload, timestamp := item.enqueuedAt)];
      }
      assert items[..|items|] == items;
      return Some(out), items;
    }

    method Ack(packetId: PacketId, fault: bool) returns (ok: bool)
      modifies this, repo`offline
      ensures ok == !fault
      ensures !ok ==> repo.offline == old(repo.offline) && ops == old(ops)
      ensures ok ==>
                && repo.offline == Removed(old(repo.offline), packetId)
                && ops == old(ops) + [Acked(packetId, packetId in old(repo.offline))]
    {
      ghost var hit := packetId in repo.offline;
      ok := repo.DeleteOfflineMessage(packetId, fault);
      if ok {
        ops := ops + [Acked(packetId, hit)];
      }
    }
  }
}
