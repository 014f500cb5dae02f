/** Last-write-wins subscription lists: the nested loop that internal/broker/subscription/registry.go
    and internal/broker/session/store.go both run over a client's subscriptions. */
module Upserts {
  import opened Types

  /** Index of the first entry for `topic`, or the length of the list. */
  function Find(list: seq<Subscription>, topic: string): (k: nat)
    ensures k <= |list|
    ensures forall i :: 0 <= i < k ==> list[i].topic != topic
    ensures k < |list| ==> list[k].topic == topic
  {
    if list == [] || list[0].topic == topic then 0 else 1 + Find(list[1..], topic)
  }

  function Upsert(list: seq<Subscription>, next: Subscription): seq<Subscription> {
    var k := Find(list, next.topic);
    if k < |list| then list[k := next] else list + [next]
  }

  function UpsertAll(list: seq<Subscription>, subs: seq<Subscription>): seq<Subscription> {
    if subs == [] then list else Upsert(UpsertAll(list, subs[..|subs| - 1]), subs[|subs| - 1])
  }

  /** The nested loop: for each new subscription, replace the entry of its topic or append. */
  method Merge(existing: seq<Subscription>, subscriptions: seq<Subscription>) returns (merged: seq<Subscription>)
    ensures merged == UpsertAll(existing, subscriptions)
  {
    merged := existing;
    for n := 0 to |subscriptions|
      invariant merged == UpsertAll(existing, subscriptions[..n])
    {
      var next := subscriptions[n];
      assert subscriptions[..n + 1][..n] == subscriptions[..n];
      ghost var before := merged;
      var replaced := false;
      var idx := 0;
      while idx < |merged|
        invariant 0 <= idx <= |merged|
        invariant !replaced && merged == before
        invariant forall i :: 0 <= i < idx ==> merged[i].topic != next.topic
      {
        if merged[idx].topic == next.topic {
          merged := merged[idx := next];
          replaced := true;
          break;
        }
        idx := idx + 1;
      }
      if !replaced {
        merged := merged + [next];
      }
      assert merged == Upsert(before, next);
    }
    assert subscriptions[..|subscriptions|] == subscriptions;
  }

  lemma UpsertAllSnoc(list: seq<Subscription>, subs: seq<Subscription>, next: Subscription)
    ensures UpsertAll(list, subs + [next]) == Upsert(UpsertAll(list, subs), next)
  {
    assert (subs + [next])[..|subs|] == subs;
  }

  lemma {:induction false} UpsertAllConcat(list: seq<Subscription>, a: seq<Subscription>, b: seq<Subscription>)
    ensures UpsertAll(list, a + b) == UpsertAll(UpsertAll(list, a), b)
  {
    if b == [] {
      assert a + b == a;
    } else {
      var front, last := b[..|b| - 1], b[|b| - 1];
      assert b == front + [last];
      assert a + b == (a + front) + [last];
      UpsertAllConcat(list, a, front);
      UpsertAllSnoc(list, a + front, last);
    }
  }

  function TopicSet(list: seq<Subscription>): set<string> {
    set s | s in list :: s.topic
  }

  lemma TopicSetSnoc(list: seq<Subscription>, next: Subscription)
    ensures TopicSet(list + [next]) == TopicSet(list) + {next.topic}
  {
    assert forall s :: s in list + [next] <==> s in list || s == next;
    assert next in list + [next];
    forall s | s in list ensures s.topic in TopicSet(list + [next]) {
      assert s in list + [next];
    }
  }

  lemma UpsertTopics(list: seq<Subscription>, next: Subscription)
    ensures TopicSet(Upsert(list, next)) == TopicSet(list) + {next.topic}
  {
    var k := Find(list, next.topic);
    if k < |list| {
      var after := list[k := next];
      forall s | s in list ensures s.topic in TopicSet(after) {
        var i :| 0 <= i < |list| && list[i] == s;
        assert after[i] in after;
      }
      forall s | s in after ensures s.topic in TopicSet(list) {
        var i :| 0 <= i < |after| && after[i] == s;
        assert list[i] in list;
      }
    } else {
      TopicSetSnoc(list, next);
    }
  }

  /** Merging adds the topics of the new subscriptions and removes none. */
  lemma {:induction false} UpsertAllTopics(list: seq<Subscription>, subs: seq<Subscription>)
    ensures TopicSet(UpsertAll(list, subs)) == TopicSet(list) + TopicSet(subs)
  {
    if subs != [] {
      var front, last := subs[..|subs| - 1], subs[|subs| - 1];
      assert subs == front + [last];
      UpsertAllTopics(list, front);
      UpsertTopics(UpsertAll(list, front), last);
      TopicSetSnoc(front, last);
    }
  }

  /** Index of the last entry for `topic`, or -1. */
  function FindLast(list: seq<Subscription>, topic: string): (k: int)
    ensures -1 <= k < |list|
    ensures forall i :: k < i < |list| ==> list[i].topic != topic
    ensures k >= 0 ==> list[k].topic == topic
  {
    if list == [] then -1
    else if list[|list| - 1].topic == topic then |list| - 1
    else FindLast(list[..|list| - 1], topic)
  }

  /** What a merged list is, said without a fold: one entry per requested topic, in the order of
      the first request for each topic, each entry being the last request for its topic. */
  ghost predicate IsMergeOf(list: seq<Subscription>, requests: seq<Subscription>) {
    && (forall i, j :: 0 <= i < j < |list| ==> Find(requests, list[i].topic) < Find(requests, list[j].topic))
    && (forall i :: 0 <= i < |list| ==>
          FindLast(requests, list[i].topic) >= 0 && list[i] == requests[FindLast(requests, list[i].topic)])
    && (forall n :: 0 <= n < |requests| ==> Find(list, requests[n].topic) < |list|)
  }

  /** No topic twice. */
  ghost predicate Distinct(list: seq<Subscription>) {
    forall i, j :: 0 <= i < j < |list| ==> list[i].topic != list[j].topic
  }

  lemma FindSnoc(requests: seq<Subscription>, next: Subscription, topic: string)
    ensures Find(requests + [next], topic) ==
            if Find(requests, topic) < |requests| then Find(requests, topic)
            else if next.topic == topic then |requests| else |requests| + 1
    ensures FindLast(requests + [next], topic) ==
            if next.topic == topic then |requests| else FindLast(requests, topic)
  {
    var more := requests + [next];
    var k, m := Find(more, topic), Find(requests, topic);
    assert more[..|requests|] == requests && more[|requests|] == next;
    if m < |requests| {
      assert more[m].topic == topic;
    }
    if k < |requests| {
      assert requests[k].topic == topic;
    }
  }

  /** Every entry of a merge is a request, so its topic is found among the requests. */
  lemma EntriesAreRequests(list: seq<Subscription>, requests: seq<Subscription>, i: nat)
    requires IsMergeOf(list, requests) && i < |list|
    ensures Find(requests, list[i].topic) < |requests|
  {
    assert requests[FindLast(requests, list[i].topic)].topic == list[i].topic;
  }

  /** The fold of last-write-wins upserts from the empty list is that merge. */
  lemma {:induction false} UpsertAllMeaning(requests: seq<Subscription>)
    ensures IsMergeOf(UpsertAll([], requests), requests)
    ensures Distinct(UpsertAll([], requests))
  {
    if requests != [] {
      var front, last := requests[..|requests| - 1], requests[|requests| - 1];
      assert requests == front + [last];
      UpsertAllMeaning(front);
      MergeStep(UpsertAll([], front), front, last);
    }
  }

  lemma MergeStep(list: seq<Subscription>, front: seq<Subscription>, last: Subscription)
    requires IsMergeOf(list, front) && Distinct(list)
    ensures IsMergeOf(Upsert(list, last), front + [last]) && Distinct(Upsert(list, last))
  {
    var after, requests := Upsert(list, last), front + [last];
    var k := Find(list, last.topic);
    assert after[k] == last;
    forall i, j | 0 <= i < j < |after|
      ensures Find(requests, after[i].topic) < Find(requests, after[j].topic)
    {
      OrderKept(list, front, last, i, j);
    }
    forall i | 0 <= i < |after|
      ensures FindLast(requests, after[i].topic) >= 0
      ensures after[i] == requests[FindLast(requests, after[i].topic)]
    {
      FindSnoc(front, last, after[i].topic);
      if i != k {
        assert after[i] == list[i];
        assert list[i].topic != last.topic;
      }
    }
    forall n | 0 <= n < |requests| ensures Find(after, requests[n].topic) < |after| {
      var i := if n < |front| then Find(list, front[n].topic) else k;
      assert after[i].topic == requests[n].topic;
    }
    assert Distinct(after);
  }

  lemma UpsertKeepsTopics(list: seq<Subscription>, next: Subscription, i: nat)
    requires i < |Upsert(list, next)|
    ensures Upsert(list, next)[i].topic == if i < |list| then list[i].topic else next.topic
    ensures i >= |list| ==> Find(list, next.topic) == |list| == i
  {
  }

  lemma RequestedIffListed(list: seq<Subscription>, requests: seq<Subscription>, t: string)
    requires IsMergeOf(list, requests)
    ensures Find(list, t) < |list| <==> Find(requests, t) < |requests|
    ensures Find(list, t) < |list| ==>
              0 <= FindLast(requests, t) && list[Find(list, t)] == requests[FindLast(requests, t)]
  {
    var k, n := Find(list, t), Find(requests, t);
    if k < |list| {
      EntriesAreRequests(list, requests, k);
    }
  }

  lemma OrderKept(list: seq<Subscription>, front: seq<Subscription>, last: Subscription, i: nat, j: nat)
    requires IsMergeOf(list, front) && Distinct(list)
    requires i < j < |Upsert(list, last)|
    ensures Find(front + [last], Upsert(list, last)[i].topic) < Find(front + [last], Upsert(list, last)[j].topic)
  {
    UpsertKeepsTopics(list, last, i);
    UpsertKeepsTopics(list, last, j);
    EntriesAreRequests(list, front, i);
    FindSnoc(front, last, list[i].topic);
    if j < |list| {
      EntriesAreRequests(list, front, j);
      FindSnoc(front, last, list[j].topic);
    } else {
      RequestedIffListed(list, front, last.topic);
      FindSnoc(front, last, last.topic);
    }
  }

  // ---- When two request orders merge to the same list ----

  /** Every topic has the same last request in both, and the topics are first requested in the same
      order. */
  ghost predicate SameMerge(r1: seq<Subscription>, r2: seq<Subscription>) {
    && (forall t: string :: Find(r1, t) < |r1| <==> Find(r2, t) < |r2|)
    && (forall t: string :: Find(r1, t) < |r1| && Find(r2, t) < |r2| ==>
          0 <= FindLast(r1, t) && 0 <= FindLast(r2, t) && r1[FindLast(r1, t)] == r2[FindLast(r2, t)])
    && (forall t: string, u: string :: Find(r1, t) < |r1| && Find(r1, u) < |r1| ==>
          (Find(r1, t) < Find(r1, u) <==> Find(r2, t) < Find(r2, u)))
  }

  function FirstAsked(requests: seq<Subscription>): Subscription -> int {
    (s: Subscription) => Find(requests, s.topic)
  }

  /** The merge of a request sequence is determined by, and determines, those two things. */
  lemma MergesAgreeExactly(l1: seq<Subscription>, r1: seq<Subscription>, l2: seq<Subscription>, r2: seq<Subscription>)
    requires IsMergeOf(l1, r1) && IsMergeOf(l2, r2)
    ensures l1 == l2 <==> SameMerge(r1, r2)
  {
    if l1 == l2 {
      EqualListsSameMerge(l1, r1, r2);
    }
    if SameMerge(r1, r2) {
      forall x ensures x in l1 <==> x in l2 {
        SameEntries(l1, r1, l2, r2, x);
        SameEntries(l2, r2, l1, r1, x);
      }
      assert SetOf(l1) == SetOf(l2);
      assert IncreasingBy(l1, FirstAsked(r1));
      forall i, j | 0 <= i < j < |l2| ensures Find(r1, l2[i].topic) < Find(r1, l2[j].topic) {
        EntriesAreRequests(l2, r2, i);
        EntriesAreRequests(l2, r2, j);
      }
      assert IncreasingBy(l2, FirstAsked(r1));
      IncreasingUnique(l1, l2, FirstAsked(r1));
    }
  }

  lemma SameEntries(l1: seq<Subscription>, r1: seq<Subscription>, l2: seq<Subscription>, r2: seq<Subscription>,
                    x: Subscription)
    requires IsMergeOf(l1, r1) && IsMergeOf(l2, r2) && (SameMerge(r1, r2) || SameMerge(r2, r1))
    ensures x in l1 ==> x in l2
  {
    if x in l1 {
      var i :| 0 <= i < |l1| && l1[i] == x;
      EntriesAreRequests(l1, r1, i);
      RequestedIffListed(l2, r2, x.topic);
      assert x == l2[Find(l2, x.topic)];
    }
  }

  lemma EqualListsSameMerge(list: seq<Subscription>, r1: seq<Subscription>, r2: seq<Subscription>)
    requires IsMergeOf(list, r1) && IsMergeOf(list, r2)
    ensures SameMerge(r1, r2)
  {
    forall t: string
      ensures Find(r1, t) < |r1| <==> Find(list, t) < |list|
      ensures Find(r2, t) < |r2| <==> Find(list, t) < |list|
      ensures Find(list, t) < |list| ==>
                0 <= FindLast(r1, t) && 0 <= FindLast(r2, t) && r1[FindLast(r1, t)] == r2[FindLast(r2, t)]
    {
      RequestedIffListed(list, r1, t);
      RequestedIffListed(list, r2, t);
    }
    forall t: string, u: string | Find(list, t) < |list| && Find(list, u) < |list|
      ensures Find(r1, t) < Find(r1, u) <==> Find(r2, t) < Find(r2, u)
    {
      ListOrder(list, r1, t, u);
      ListOrder(list, r2, t, u);
    }
  }

  lemma ListOrder(list: seq<Subscription>, requests: seq<Subscription>, t: string, u: string)
    requires IsMergeOf(list, requests) && Find(list, t) < |list| && Find(list, u) < |list|
    ensures Find(requests, t) < Find(requests, u) <==> Find(list, t) < Find(list, u)
  {
    var i, j := Find(list, t), Find(list, u);
    assert list[i].topic == t && list[j].topic == u;
    if i < j {
      assert Find(requests, list[i].topic) < Find(requests, list[j].topic);
    } else if j < i {
      assert Find(requests, list[j].topic) < Find(requests, list[i].topic);
    }
  }
}
