/** The fixed-window rate limiter: internal/broker/server/limiter.go. */
module Limiter {
  import opened Types

  datatype Limits = Limits(limit: int, window: int)
  datatype Window = Window(resetAt: int, count: int)
  type WindowTable = map<ClientId, Window>

  /** Does the next call open a new window? */
  predicate Opens(seen: WindowTable, clientId: ClientId, now: int) {
    clientId !in seen || now > seen[clientId].resetAt
  }

  predicate Admits(seen: WindowTable, limits: Limits, clientId: ClientId, now: int) {
    Opens(seen, clientId, now) || seen[clientId].count < limits.limit
  }

  function AfterCall(seen: WindowTable, limits: Limits, clientId: ClientId, now: int): WindowTable {
    if Opens(seen, clientId, now) then seen[clientId := Window(now + limits.window, 1)]
    else if seen[clientId].count >= limits.limit then seen
    else seen[clientId := seen[clientId].(count := seen[clientId].count + 1)]
  }

  class RateLimiter {
    const limits: Limits
    var seen: WindowTable

    constructor (limits: Limits)
      ensures this.limits == limits && seen == map[]
    {
      this.limits, this.seen := limits, map[];
    }

    method Allow(clientId: ClientId, now: int) returns (allowed: bool)
      modifies this
      ensures allowed == Admits(old(seen), limits, clientId, now)
      ensures seen == AfterCall(old(seen), limits, clientId, now)
    {
      if clientId !in seen || now > seen[clientId].resetAt {
        seen := seen[clientId := Window(now + limits.window, 1)];
        return true;
      }
      var entry := seen[clientId];
      if entry.count >= limits.limit {
        return false;
      }
      seen := seen[clientId := entry.(count := entry.count + 1)];
      return true;
    }
  }

  datatype Call = Call(clientId: ClientId, now: int)

  /** The windows after a sequence of calls to a new limiter. */
  function Calls(limits: Limits, calls: seq<Call>): WindowTable {
    if calls == [] then map[]
    else
      var last := calls[|calls| - 1];
      AfterCall(Calls(limits, calls[..|calls| - 1]), limits, last.clientId, last.now)
  }

  lemma CallsSnoc(limits: Limits, calls: seq<Call>, call: Call)
    ensures Calls(limits, calls + [call]) == AfterCall(Calls(limits, calls), limits, call.clientId, call.now)
  {
    assert (calls + [call])[..|calls|] == calls;
  }

  /** How many calls of `clientId` with a time in [from, to] were admitted. */
  function Admitted(limits: Limits, calls: seq<Call>, clientId: ClientId, from: int, to: int): nat {
    if calls == [] then 0
    else
      var front, last := calls[..|calls| - 1], calls[|calls| - 1];
      Admitted(limits, front, clientId, from, to)
      + if last.clientId == clientId && from <= last.now <= to
           && Admits(Calls(limits, front), limits, clientId, last.now)
        then 1 else 0
  }

  ghost predicate Monotone(calls: seq<Call>) {
    forall i, j :: 0 <= i <= j < |calls| ==> calls[i].now <= calls[j].now
  }

  function AtLeastOne(limit: int): int {
    if limit < 1 then 1 else limit
  }

  function CeilDiv(length: nat, window: int): nat
    requires window > 0
  {
    (length + window - 1) / window
  }

  /** No window ever holds more than max(1, limit) admitted calls. */
  lemma {:induction false} WindowBound(limits: Limits, calls: seq<Call>, clientId: ClientId)
    requires clientId in Calls(limits, calls)
    ensures 1 <= Calls(limits, calls)[clientId].count <= AtLeastOne(limits.limit)
  {
    var front, last := calls[..|calls| - 1], calls[|calls| - 1];
    if clientId in Calls(limits, front) {
      WindowBound(limits, front, clientId);
    }
  }

  /** Up to time `to`, the calls admitted since `from` fall into k windows of the client, where
      the windows after the first open more than one window length apart. */
  lemma {:induction false} WindowsTouched(limits: Limits, calls: seq<Call>, clientId: ClientId, from: int, to: int)
    returns (k: nat)
    requires Monotone(calls) && limits.window > 0
    requires calls != [] ==> calls[|calls| - 1].now <= to
    ensures k == 0 ==> Admitted(limits, calls, clientId, from, to) == 0
    ensures k >= 1 ==>
              && clientId in Calls(limits, calls)
              && calls[|calls| - 1].now >= from
              && var w := Calls(limits, calls)[clientId];
                 && Admitted(limits, calls, clientId, from, to) <= (k - 1) * AtLeastOne(limits.limit) + w.count
                 && w.resetAt >= from + (k - 1) * limits.window
                 && (k >= 2 ==> from + (k - 1) * limits.window < w.resetAt <= to + limits.window)
  {
    if calls == [] {
      k := 0;
    } else {
      var front, last := calls[..|calls| - 1], calls[|calls| - 1];
      k := WindowsTouched(limits, front, clientId, from, to);
      var seen := Calls(limits, front);
      if last.clientId == clientId && last.now >= from && Admits(seen, limits, clientId, last.now) {
        if clientId in seen {
          WindowBound(limits, front, clientId);
        }
        if k == 0 {
          k := 1;
        } else if Opens(seen, clientId, last.now) {
          assert k * limits.window == (k - 1) * limits.window + limits.window;
          assert k * AtLeastOne(limits.limit) == (k - 1) * AtLeastOne(limits.limit) + AtLeastOne(limits.limit);
          k := k + 1;
        }
      }
    }
  }

  lemma CeilBound(k: int, length: nat, window: int)
    requires window > 0 && (k - 1) * window < length
    ensures k <= CeilDiv(length, window)
  {
    assert CeilDiv(length, window) * window >= length;
  }

  lemma WindowsFit(k: nat, length: nat, window: int)
    requires window > 0 && (k >= 2 ==> (k - 1) * window < length + window)
    ensures k <= CeilDiv(length, window) + 1
  {
    if k >= 2 {
      assert (k - 1) * window == (k - 2) * window + window;
      CeilBound(k - 1, length, window);
    }
  }

  lemma Scale(k: int, n: int, m: nat)
    requires 1 <= k <= n
    ensures (k - 1) * m + m == k * m <= n * m
  {
    assert n * m == k * m + (n - k) * m;
  }

  /** The rate bound: in any closed interval of length L a client has at most
      (ceil(L / W) + 1) * max(1, limit) admitted calls, whatever the other clients do. */
  lemma {:induction false} RateBound(limits: Limits, calls: seq<Call>, clientId: ClientId, from: int, to: int)
    requires Monotone(calls) && limits.window > 0 && from <= to
    ensures Admitted(limits, calls, clientId, from, to)
            <= (CeilDiv(to - from, limits.window) + 1) * AtLeastOne(limits.limit)
    decreases |calls|
  {
    if calls != [] && calls[|calls| - 1].now > to {
      RateBound(limits, calls[..|calls| - 1], clientId, from, to);
    } else {
      var k := WindowsTouched(limits, calls, clientId, from, to);
      var m, q := AtLeastOne(limits.limit), CeilDiv(to - from, limits.window);
      if k >= 1 {
        WindowBound(limits, calls, clientId);
        WindowsFit(k, to - from, limits.window);
        Scale(k, q + 1, m);
        assert Admitted(limits, calls, clientId, from, to) <= (k - 1) * m + m;
      }
    }
  }

  /** Admitted calls of a client at any time. */
  function AdmittedEver(limits: Limits, calls: seq<Call>, clientId: ClientId): nat {
    if calls == [] then 0
    else
      var front, last := calls[..|calls| - 1], calls[|calls| - 1];
      AdmittedEver(limits, front, clientId)
      + if last.clientId == clientId && Admits(Calls(limits, front), limits, clientId, last.now) then 1 else 0
  }

  /** A client's entry is the history of its current window: it was opened by call j, it expires
      one window later, and its count is the number of calls admitted from call j on. */
  lemma {:induction false} WindowHistory(limits: Limits, calls: seq<Call>, clientId: ClientId) returns (j: nat)
    requires clientId in Calls(limits, calls)
    ensures j < |calls| && calls[j].clientId == clientId
    ensures Opens(Calls(limits, calls[..j]), clientId, calls[j].now)
    ensures Calls(limits, calls)[clientId].resetAt == calls[j].now + limits.window
    ensures Calls(limits, calls)[clientId].count ==
            AdmittedEver(limits, calls, clientId) - AdmittedEver(limits, calls[..j], clientId)
  {
    var front, last := calls[..|calls| - 1], calls[|calls| - 1];
    if last.clientId == clientId && Opens(Calls(limits, front), clientId, last.now) {
      j := |calls| - 1;
    } else {
      j := WindowHistory(limits, front, clientId);
      assert front[..j] == calls[..j];
    }
  }

  /** A call is refused exactly when the client's current window is still open and has already
      admitted the limit (which, since opening a window always admits, is max(1, limit) calls). */
  lemma RefusedExactly(limits: Limits, calls: seq<Call>, clientId: ClientId, now: int) returns (j: nat)
    requires clientId in Calls(limits, calls)
    ensures j < |calls| && calls[j].clientId == clientId && Opens(Calls(limits, calls[..j]), clientId, calls[j].now)
    ensures var since := AdmittedEver(limits, calls, clientId) - AdmittedEver(limits, calls[..j], clientId);
            && 1 <= since <= AtLeastOne(limits.limit)
            && (!Admits(Calls(limits, calls), limits, clientId, now) <==>
                  now <= calls[j].now + limits.window && since >= limits.limit)
  {
    WindowBound(limits, calls, clientId);
    j := WindowHistory(limits, calls, clientId);
  }

  function ByClient(clientId: ClientId): Call -> bool {
    (call: Call) => call.clientId == clientId
  }

  /** Two tables hold the same window for a client. */
  predicate SameWindow(s: WindowTable, t: WindowTable, clientId: ClientId) {
    (clientId in s <==> clientId in t) && (clientId in t ==> s[clientId] == t[clientId])
  }

  lemma SameAfterCall(s: WindowTable, t: WindowTable, limits: Limits, call: Call, clientId: ClientId)
    requires SameWindow(s, t, clientId)
    ensures SameWindow(if call.clientId == clientId then AfterCall(s, limits, call.clientId, call.now) else s,
                       AfterCall(t, limits, call.clientId, call.now), clientId)
  {
  }

  lemma {:induction false} OwnWindow(limits: Limits, calls: seq<Call>, clientId: ClientId)
    ensures SameWindow(Calls(limits, Filter(calls, ByClient(clientId))), Calls(limits, calls), clientId)
  {
    if calls != [] {
      var front, last := calls[..|calls| - 1], calls[|calls| - 1];
      var own := Filter(front, ByClient(clientId));
      assert calls == front + [last];
      OwnWindow(limits, front, clientId);
      FilterSnoc(front, last, ByClient(clientId));
      CallsSnoc(limits, own, last);
      SameAfterCall(Calls(limits, own), Calls(limits, front), limits, last, clientId);
    }
  }

  /** Clients never affect each other: dropping everyone else's calls changes nothing for a client. */
  lemma ClientsIndependent(limits: Limits, calls: seq<Call>, clientId: ClientId, now: int)
    ensures var own := Calls(limits, Filter(calls, ByClient(clientId)));
            var all := Calls(limits, calls);
            && SameWindow(own, all, clientId)
            && Admits(own, limits, clientId, now) == Admits(all, limits, clientId, now)
  {
    OwnWindow(limits, calls, clientId);
  }
}
