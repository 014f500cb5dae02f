/** The session store: internal/broker/session/store.go.  Sessions are never deleted; a
    disconnected client keeps its record and its subscriptions.  The connection and last-seen
    times, which nothing reads, are left out. */
module Sessions {
  import opened Types
  import opened Upserts

  datatype Session = Session(
    clientId: ClientId,
    claims: Claims,
    conn: Option<ConnId>,
    online: bool,
    subscriptions: seq<Subscription>)

  type SessionTable = map<ClientId, Session>

  function Connected(sessions: SessionTable, clientId: ClientId, claims: Claims, conn: ConnId): SessionTable {
    var kept := if clientId in sessions then sessions[clientId].subscriptions else [];
    sessions[clientId := Session(clientId, claims, Some(conn), true, kept)]
  }

  function WithSubscriptions(sessions: SessionTable, clientId: ClientId, subs: seq<Subscription>): SessionTable {
    if clientId !in sessions then sessions
    else
      var s := sessions[clientId];
      sessions[clientId := s.(subscriptions := UpsertAll(s.subscriptions, subs))]
  }

  function Disconnected(sessions: SessionTable, clientId: ClientId): SessionTable {
    if clientId !in sessions then sessions
    else sessions[clientId := sessions[clientId].(online := false, conn := None)]
  }

  function OnlineIds(sessions: SessionTable): set<ClientId> {
    set c | c in sessions && sessions[c].online
  }

  class SessionStore {
    var sessions: SessionTable

    constructor ()
      ensures sessions == map[]
    {
      sessions := map[];
    }

    method UpsertConnected(clientId: ClientId, claims: Claims, conn: ConnId)
      returns (present: bool, subscriptions: seq<Subscription>)
      modifies this
      ensures sessions == Connected(old(sessions), clientId, claims, conn)
      ensures present == (clientId in old(sessions))
      ensures subscriptions == sessions[clientId].subscriptions
    {
      var next := Session(clientId, claims, Some(conn), false, []);
      present := clientId in sessions;
      if present {
        next := next.(subscriptions := sessions[clientId].subscriptions);
      }
      next := next.(online := true);
      sessions := sessions[clientId := next];
      subscriptions := next.subscriptions;
    }

    method AddSubscriptions(clientId: ClientId, subscriptions: seq<Subscription>)
      modifies this
      ensures sessions == WithSubscriptions(old(sessions), clientId, subscriptions)
    {
      if clientId !in sessions {
        return;
      }
      var session := sessions[clientId];
      var merged := Merge(session.subscriptions, subscriptions);
      sessions := sessions[clientId := session.(subscriptions := merged)];
    }

    method Disconnect(clientId: ClientId)
      modifies this
      ensures sessions == Disconnected(old(sessions), clientId)
    {
      if clientId in sessions {
        sessions := sessions[clientId := sessions[clientId].(online := false, conn := None)];
      }
    }

    method Get(clientId: ClientId) returns (found: Option<Session>)
      ensures found == if clientId in sessions then Some(sessions[clientId]) else None
    {
      found := if clientId in sessions then Some(sessions[clientId]) else None;
    }

    method OnlineCount() returns (total: nat)
      ensures total == |OnlineIds(sessions)|
    {
      total := 0;
      var left := sessions.Keys;
      ghost var counted: set<ClientId> := {};
      while left != {}
        invariant left <= sessions.Keys
        invariant counted == OnlineIds(sessions) - left
        invariant total == |counted|
        decreases left
      {
        var c :| c in left;
        left := left - {c};
        if sessions[c].online {
          counted, total := counted + {c}, total + 1;
        }
      }
      assert counted == OnlineIds(sessions);
    }
  }
}
