/** The subscription registry: internal/broker/subscription/registry.go. */
module Subscriptions {
  import opened Types
  import opened Topics
  import opened Upserts

  datatype Match = Match(clientId: ClientId, filter: string, qos: int)

  type SubTable = map<ClientId, seq<Subscription>>

  function SubsOf(table: SubTable, clientId: ClientId): seq<Subscription> {
    if clientId in table then table[clientId] else []
  }

  function Added(table: SubTable, clientId: ClientId, subs: seq<Subscription>): SubTable {
    table[clientId := UpsertAll(SubsOf(table, clientId), subs)]
  }

  function Hit(clientId: ClientId, sub: Subscription): Match {
    Match(clientId, sub.topic, sub.qos)
  }

  /** The matches one client's subscriptions contribute, in list order. */
  function ClientMatches(clientId: ClientId, subs: seq<Subscription>, topic: string): seq<Match> {
    if subs == [] then []
    else
      var last := subs[|subs| - 1];
      ClientMatches(clientId, subs[..|subs| - 1], topic)
      + if Matches(last.topic, topic) then [Hit(clientId, last)] else []
  }

  lemma {:induction false} ClientMatchMeaning(clientId: ClientId, subs: seq<Subscription>, topic: string, m: Match)
    ensures m in ClientMatches(clientId, subs, topic) <==>
              m.clientId == clientId && Matches(m.filter, topic) && Subscription(m.filter, m.qos) in subs
  {
    if subs != [] {
      var front, last := subs[..|subs| - 1], subs[|subs| - 1];
      assert subs == front + [last];
      ClientMatchMeaning(clientId, front, topic, m);
    }
  }

  function Matcher(table: SubTable, topic: string): ClientId -> seq<Match> {
    clientId => ClientMatches(clientId, SubsOf(table, clientId), topic)
  }

  /** All matches, one client block after another in the given order. */
  function MatchesIn(table: SubTable, order: seq<ClientId>, topic: string): seq<Match> {
    FlatMap(order, Matcher(table, topic))
  }

  /** `order` lists the keys of a map, each exactly once. */
  ghost predicate Enumerates(order: seq<ClientId>, keys: set<ClientId>) {
    multiset(order) == multiset(keys)
  }

  lemma EnumerationMembers(order: seq<ClientId>, keys: set<ClientId>)
    requires Enumerates(order, keys)
    ensures forall c :: c in order <==> c in keys
  {
    assert forall c :: c in order <==> c in multiset(order);
    assert forall c :: c in keys <==> c in multiset(keys);
  }

  lemma EnumerateOneMore(order: seq<ClientId>, keys: set<ClientId>, left: set<ClientId>, c: ClientId)
    requires left <= keys && c in left && Enumerates(order, keys - left)
    ensures Enumerates(order + [c], keys - (left - {c}))
  {
    assert keys - (left - {c}) == (keys - left) + {c};
    assert multiset((keys - left) + {c}) == multiset(keys - left) + multiset{c};
  }

  /** A result Match may return: the matches for some order of the map. */
  ghost predicate IsMatchList(matches: seq<Match>, table: SubTable, topic: string) {
    exists order :: Enumerates(order, table.Keys) && matches == MatchesIn(table, order, topic)
  }

  lemma SomeMatchList(table: SubTable, topic: string) returns (matches: seq<Match>)
    ensures IsMatchList(matches, table, topic)
  {
    var order: seq<ClientId>, left := [], table.Keys;
    while left != {}
      invariant left <= table.Keys && Enumerates(order, table.Keys - left)
      decreases left
    {
      var c :| c in left;
      EnumerateOneMore(order, table.Keys, left, c);
      order, left := order + [c], left - {c};
    }
    assert table.Keys - left == table.Keys;
    matches := MatchesIn(table, order, topic);
  }

  /** A match is a registered subscription whose filter accepts the topic: nothing is missed and
      nothing is invented, whatever the iteration order. */
  lemma MatchMeaning(matches: seq<Match>, table: SubTable, topic: string, m: Match)
    requires IsMatchList(matches, table, topic)
    ensures m in matches <==>
              m.clientId in table && Matches(m.filter, topic) && Subscription(m.filter, m.qos) in table[m.clientId]
  {
    var order :| Enumerates(order, table.Keys) && matches == MatchesIn(table, order, topic);
    EnumerationMembers(order, table.Keys);
    FlatMapMember(order, Matcher(table, topic), m);
    forall c ensures m in Matcher(table, topic)(c) <==>
              m.clientId == c && Matches(m.filter, topic) && Subscription(m.filter, m.qos) in SubsOf(table, c)
    {
      ClientMatchMeaning(c, SubsOf(table, c), topic, m);
    }
  }

  /** The matches are the same up to reordering for every iteration order. */
  lemma MatchesPermute(table: SubTable, topic: string, matches1: seq<Match>, matches2: seq<Match>)
    requires IsMatchList(matches1, table, topic) && IsMatchList(matches2, table, topic)
    ensures multiset(matches1) == multiset(matches2)
  {
    var order1 :| Enumerates(order1, table.Keys) && matches1 == MatchesIn(table, order1, topic);
    var order2 :| Enumerates(order2, table.Keys) && matches2 == MatchesIn(table, order2, topic);
    FlatMapPermute(order1, order2, Matcher(table, topic));
  }

  class Registry {
    var byClient: SubTable

    constructor ()
      ensures byClient == map[]
    {
      byClient := map[];
    }

    method Add(clientId: ClientId, subscriptions: seq<Subscription>)
      modifies this
      ensures byClient == Added(old(byClient), clientId, subscriptions)
    {
      var existing := if clientId in byClient then byClient[clientId] else [];
      existing := Merge(existing, subscriptions);
      byClient := byClient[clientId := existing];
    }

    /** Match ranges over the map in an arbitrary order. */
    method Match(topic: string) returns (matches: seq<Match>)
      ensures IsMatchList(matches, byClient, topic)
    {
      matches := [];
      ghost var order: seq<ClientId> := [];
      var left := byClient.Keys;
      while left != {}
        invariant left <= byClient.Keys
        invariant Enumerates(order, byClient.Keys - left)
        invariant matches == MatchesIn(byClient, order, topic)
        decreases left
      {
        var clientId :| clientId in left;
        var found := MatchClient(clientId, byClient[clientId], topic);
        matches := matches + found;
        FlatMapSnoc(order, clientId, Matcher(byClient, topic));
        EnumerateOneMore(order, byClient.Keys, left, clientId);
        order, left := order + [clientId], left - {clientId};
      }
      assert byClient.Keys - left == byClient.Keys;
    }

    /** The inner loop of Match, over one client's subscriptions. */
    static method MatchClient(clientId: ClientId, subscriptions: seq<Subscription>, topic: string)
      returns (matches: seq<Match>)
      ensures matches == ClientMatches(clientId, subscriptions, topic)
    {
      matches := [];
      for n := 0 to |subscriptions|
        invariant matches == ClientMatches(clientId, subscriptions[..n], topic)
      {
        assert subscriptions[..n + 1][..n] == subscriptions[..n];
        var hit := MatchTopic(subscriptions[n].topic, topic);
        if hit {
          matches := matches + [Hit(clientId, subscriptions[n])];
        }
      }
      assert subscriptions[..|subscriptions|] == subscriptions;
    }
  }
}
