/** The two copies of a client's subscriptions under interleaving.  handleSubscribe calls
    Registry.Add and SessionStore.AddSubscriptions one after the other, each under its own lock, so
    handlers of different connections may interleave between the two calls.  A handler is sequential:
    it is between the two calls with one request at most, and does not end there. */
module DualStore {
  import opened Types
  import opened Upserts
  import opened Subscriptions
  import opened Sessions

  /** One SUBSCRIBE on its way through the two stores, and the connection it came on. */
  datatype Request = Request(conn: ConnId, clientId: ClientId, subs: seq<Subscription>)

  /** The stores, the running handlers, the requests between the two calls, and the order in which
      requests reached each store. */
  datatype Stores = Stores(
    registry: SubTable,
    sessions: SessionTable,
    handlers: map<ConnId, ClientId>,
    inflight: seq<Request>,
    begun: seq<Request>,
    finished: seq<Request>)

  datatype Move =
    | Connect(clientId: ClientId, claims: Claims, conn: ConnId)
    | Disconnect(conn: ConnId)
    | AddToRegistry(request: Request)
    | AddToSession(i: nat)

  const EMPTY := Stores(map[], map[], map[], [], [], [])

  /** The handler of the connection is between the two calls. */
  predicate IsBusy(s: Stores, conn: ConnId) {
    exists r :: r in s.inflight && r.conn == conn
  }

  predicate Enabled(s: Stores, m: Move) {
    match m
    case Connect(_, _, conn) => conn !in s.handlers
    case Disconnect(conn) => conn in s.handlers && !IsBusy(s, conn)
    case AddToRegistry(r) => r.conn in s.handlers && s.handlers[r.conn] == r.clientId && !IsBusy(s, r.conn)
    case AddToSession(i) => i < |s.inflight|
  }

  function Step(s: Stores, m: Move): Stores {
    if !Enabled(s, m) then s
    else
      match m
      case Connect(c, claims, conn) =>
        s.(sessions := Connected(s.sessions, c, claims, conn), handlers := s.handlers[conn := c])
      case Disconnect(conn) =>
        s.(sessions := Disconnected(s.sessions, s.handlers[conn]), handlers := s.handlers - {conn})
      case AddToRegistry(r) =>
        s.(registry := Added(s.registry, r.clientId, r.subs), inflight := s.inflight + [r], begun := s.begun + [r])
      case AddToSession(i) =>
        var r := s.inflight[i];
        s.(sessions := WithSubscriptions(s.sessions, r.clientId, r.subs),
           inflight := s.inflight[..i] + s.inflight[i + 1..], finished := s.finished + [r])
  }

  function Run(moves: seq<Move>): Stores {
    if moves == [] then EMPTY else Step(Run(moves[..|moves| - 1]), moves[|moves| - 1])
  }

  function Own(c: ClientId): Request -> seq<Subscription> {
    (r: Request) => if r.clientId == c then r.subs else []
  }

  /** What client c asked for in a sequence of requests. */
  function Asked(rs: seq<Request>, c: ClientId): seq<Subscription> {
    FlatMap(rs, Own(c))
  }

  function SubsIn(sessions: SessionTable, c: ClientId): seq<Subscription> {
    if c in sessions then sessions[c].subscriptions else []
  }

  function SessionSubs(s: Stores, c: ClientId): seq<Subscription> {
    SubsIn(s.sessions, c)
  }

  ghost predicate RegistryIsFold(registry: SubTable, begun: seq<Request>) {
    forall c :: SubsOf(registry, c) == UpsertAll([], Asked(begun, c))
  }

  ghost predicate SessionsAreFold(sessions: SessionTable, finished: seq<Request>) {
    forall c :: SubsIn(sessions, c) == UpsertAll([], Asked(finished, c))
  }

  /** Each store is the fold of the requests in the order they reached it, and the requests that
      reached the registry are those that reached the sessions and those in between. */
  ghost predicate Inv(s: Stores) {
    && RegistryIsFold(s.registry, s.begun)
    && SessionsAreFold(s.sessions, s.finished)
    && multiset(s.begun) == multiset(s.finished) + multiset(s.inflight)
    && HandlersOk(s)
  }

  /** Requests in between belong to running handlers, one each, and handlers have sessions. */
  ghost predicate HandlersOk(s: Stores) {
    && (forall k :: k in s.handlers ==> s.handlers[k] in s.sessions)
    && (forall i :: 0 <= i < |s.inflight| ==>
          s.inflight[i].conn in s.handlers && s.handlers[s.inflight[i].conn] == s.inflight[i].clientId)
    && (forall i, j :: 0 <= i < j < |s.inflight| ==> s.inflight[i].conn != s.inflight[j].conn)
  }

  lemma HandlersStep(s: Stores, m: Move)
    requires HandlersOk(s)
    ensures HandlersOk(Step(s, m))
  {
    var s' := Step(s, m);
    if Enabled(s, m) {
      if m.AddToSession? {
        var pos := (i: int) => if i < m.i then i else i + 1;
        assert forall i :: 0 <= i < |s'.inflight| ==> s'.inflight[i] == s.inflight[pos(i)];
      } else {
        assert forall i :: 0 <= i < |s.inflight| ==> s.inflight[i] in s.inflight;
      }
    }
  }

  lemma AskedSnoc(rs: seq<Request>, r: Request, c: ClientId)
    ensures Asked(rs + [r], c) == if r.clientId == c then Asked(rs, c) + r.subs else Asked(rs, c)
    ensures UpsertAll([], Asked(rs + [r], c)) ==
            if r.clientId == c then UpsertAll(UpsertAll([], Asked(rs, c)), r.subs) else UpsertAll([], Asked(rs, c))
  {
    FlatMapSnoc(rs, r, Own(c));
    UpsertAllConcat([], Asked(rs, c), r.subs);
  }

  lemma OneMoreRequest(begun: seq<Request>, finished: seq<Request>, inflight: seq<Request>, r: Request)
    requires multiset(begun) == multiset(finished) + multiset(inflight)
    ensures multiset(begun + [r]) == multiset(finished) + multiset(inflight + [r])
  {
    assert multiset(begun + [r]) == multiset(begun) + multiset{r};
    assert multiset(inflight + [r]) == multiset(inflight) + multiset{r};
  }

  lemma AddToRegistryInv(s: Stores, r: Request)
    requires Inv(s) && Enabled(s, AddToRegistry(r))
    ensures Inv(Step(s, AddToRegistry(r)))
  {
    HandlersStep(s, AddToRegistry(r));
    OneMoreRequest(s.begun, s.finished, s.inflight, r);
    RegistryFolds(s.registry, s.begun, r);
  }

  lemma RegistryFolds(registry: SubTable, begun: seq<Request>, r: Request)
    requires RegistryIsFold(registry, begun)
    ensures RegistryIsFold(Added(registry, r.clientId, r.subs), begun + [r])
  {
    forall c ensures SubsOf(Added(registry, r.clientId, r.subs), c) == UpsertAll([], Asked(begun + [r], c)) {
      AskedSnoc(begun, r, c);
    }
  }

  lemma SessionsFold(sessions: SessionTable, finished: seq<Request>, r: Request)
    requires SessionsAreFold(sessions, finished) && r.clientId in sessions
    ensures SessionsAreFold(WithSubscriptions(sessions, r.clientId, r.subs), finished + [r])
  {
    var after := WithSubscriptions(sessions, r.clientId, r.subs);
    forall c ensures SubsIn(after, c) == UpsertAll([], Asked(finished + [r], c)) {
      AskedSnoc(finished, r, c);
    }
  }

  lemma AddToSessionInv(s: Stores, i: nat)
    requires Inv(s) && i < |s.inflight|
    ensures Inv(Step(s, AddToSession(i)))
  {
    var r, a, b := s.inflight[i], s.inflight[..i], s.inflight[i + 1..];
    HandlersStep(s, AddToSession(i));
    assert s.inflight == a + [r] + b;
    assert multiset(s.inflight) == multiset(a) + multiset{r} + multiset(b);
    SessionsFold(s.sessions, s.finished, r);
  }

  lemma ConnectionInv(s: Stores, m: Move)
    requires Inv(s) && (m.Connect? || m.Disconnect?)
    ensures Inv(Step(s, m))
  {
    HandlersStep(s, m);
    forall c ensures SubsIn(Step(s, m).sessions, c) == SubsIn(s.sessions, c) {
    }
  }

  lemma {:induction false} RunInv(moves: seq<Move>)
    ensures Inv(Run(moves))
  {
    if moves != [] {
      var s, m := Run(moves[..|moves| - 1]), moves[|moves| - 1];
      RunInv(moves[..|moves| - 1]);
      match m {
        case AddToRegistry(r) => if Enabled(s, m) { AddToRegistryInv(s, r); }
        case AddToSession(i) => if i < |s.inflight| { AddToSessionInv(s, i); }
        case Connect(_, _, _) => ConnectionInv(s, m);
        case Disconnect(_) => ConnectionInv(s, m);
      }
    }
  }

  lemma AskedTopic(rs: seq<Request>, c: ClientId, topic: string)
    ensures topic in TopicSet(Asked(rs, c)) <==>
            exists r, sub :: r in rs && r.clientId == c && sub in r.subs && sub.topic == topic
  {
    forall sub ensures sub in Asked(rs, c) <==> exists r :: r in rs && sub in Own(c)(r) {
      FlatMapMember(rs, Own(c), sub);
    }
    if topic in TopicSet(Asked(rs, c)) {
      var sub :| sub in Asked(rs, c) && sub.topic == topic;
      var r :| r in rs && sub in Own(c)(r);
      assert r in rs && r.clientId == c && sub in r.subs && sub.topic == topic;
    }
    if r, sub :| r in rs && r.clientId == c && sub in r.subs && sub.topic == topic {
      assert sub in Own(c)(r);
      assert sub in Asked(rs, c);
    }
  }

  lemma AskedTopics(all: seq<Request>, some: seq<Request>, rest: seq<Request>, c: ClientId)
    requires multiset(all) == multiset(some) + multiset(rest)
    ensures TopicSet(Asked(all, c)) == TopicSet(Asked(some, c)) + TopicSet(Asked(rest, c))
  {
    forall r: Request ensures r in all <==> r in some || r in rest {
      assert r in all <==> r in multiset(all);
    }
    forall topic ensures topic in TopicSet(Asked(all, c)) <==>
                         topic in TopicSet(Asked(some, c)) || topic in TopicSet(Asked(rest, c))
    {
      AskedTopic(all, c, topic);
      AskedTopic(some, c, topic);
      AskedTopic(rest, c, topic);
    }
  }

  /** Under every interleaving, the registry's topics of a client are the session's topics plus
      those of its requests in between; so with none in between the two agree as sets. */
  lemma TopicsAgree(moves: seq<Move>, c: ClientId)
    ensures var s := Run(moves);
            && TopicSet(SubsOf(s.registry, c)) == TopicSet(SessionSubs(s, c)) + TopicSet(Asked(s.inflight, c))
            && (Asked(s.inflight, c) == [] ==> TopicSet(SubsOf(s.registry, c)) == TopicSet(SessionSubs(s, c)))
  {
    RunInv(moves);
    var s := Run(moves);
    UpsertAllTopics([], Asked(s.begun, c));
    UpsertAllTopics([], Asked(s.finished, c));
    AskedTopics(s.begun, s.finished, s.inflight, c);
  }

  // ---- Exact agreement ----

  /** The move does not finish a request of client c before an older one of c. */
  ghost predicate InOrder(s: Stores, m: Move, c: ClientId) {
    m.AddToSession? && Enabled(s, m) && s.inflight[m.i].clientId == c ==>
      forall j :: 0 <= j < m.i ==> s.inflight[j].clientId != c
  }

  ghost predicate OrderedRun(moves: seq<Move>, c: ClientId) {
    forall n :: 0 <= n < |moves| ==> InOrder(Run(moves[..n]), moves[n], c)
  }

  /** Client c has one request in between at most. */
  ghost predicate OneRequest(s: Stores, c: ClientId) {
    forall i, j :: 0 <= i < j < |s.inflight| && s.inflight[i].clientId == c ==> s.inflight[j].clientId != c
  }

  ghost predicate OneAtATime(moves: seq<Move>, c: ClientId) {
    forall n :: 0 <= n < |moves| ==> OneRequest(Run(moves[..n]), c)
  }

  lemma OneAtATimeIsOrdered(moves: seq<Move>, c: ClientId)
    requires OneAtATime(moves, c)
    ensures OrderedRun(moves, c)
  {
    forall n | 0 <= n < |moves| ensures InOrder(Run(moves[..n]), moves[n], c) {
      assert OneRequest(Run(moves[..n]), c);
    }
  }

  /** Client c has one running handler at most. */
  ghost predicate OneHandler(s: Stores, c: ClientId) {
    forall k, l :: k in s.handlers && l in s.handlers && s.handlers[k] == c && s.handlers[l] == c ==> k == l
  }

  ghost predicate OneConnection(moves: seq<Move>, c: ClientId) {
    forall n :: 0 <= n < |moves| ==> OneHandler(Run(moves[..n]), c)
  }

  lemma OneConnectionIsOneAtATime(moves: seq<Move>, c: ClientId)
    requires OneConnection(moves, c)
    ensures OneAtATime(moves, c)
  {
    forall n | 0 <= n < |moves| ensures OneRequest(Run(moves[..n]), c) {
      RunInv(moves[..n]);
      assert OneHandler(Run(moves[..n]), c);
    }
  }

  lemma {:induction false} NothingAsked(rs: seq<Request>, c: ClientId)
    requires forall j :: 0 <= j < |rs| ==> rs[j].clientId != c
    ensures Asked(rs, c) == []
  {
    if rs != [] {
      NothingAsked(rs[..|rs| - 1], c);
    }
  }

  /** Taking out a client's oldest request takes its subscriptions off the front. */
  lemma TakeOldest(a: seq<Request>, r: Request, b: seq<Request>, c: ClientId)
    requires r.clientId == c ==> forall j :: 0 <= j < |a| ==> a[j].clientId != c
    ensures Asked(a + [r] + b, c) == Own(c)(r) + Asked(a + b, c)
  {
    var fa, fr, fb := Asked(a, c), Own(c)(r), Asked(b, c);
    assert Asked(a + [r] + b, c) == fa + fr + fb by {
      FlatMapConcat(a + [r], b, Own(c));
      FlatMapSnoc(a, r, Own(c));
    }
    assert Asked(a + b, c) == fa + fb by { FlatMapConcat(a, b, Own(c)); }
    if r.clientId == c {
      NothingAsked(a, c);
      assert fa == [];
    } else {
      assert fr == [];
    }
  }

  lemma OrderedFinish(finished: seq<Request>, a: seq<Request>, r: Request, b: seq<Request>, c: ClientId)
    requires r.clientId == c ==> forall j :: 0 <= j < |a| ==> a[j].clientId != c
    ensures Asked(finished, c) + Asked(a + [r] + b, c) == Asked(finished + [r], c) + Asked(a + b, c)
  {
    var done, own, left := Asked(finished, c), Own(c)(r), Asked(a + b, c);
    TakeOldest(a, r, b, c);
    FlatMapSnoc(finished, r, Own(c));
    ConcatAssoc(done, own, left);
  }

  /** What c asked for in the requests that began is what it asked for in those that finished, then in
      those in between. */
  ghost predicate IsOrdered(begun: seq<Request>, finished: seq<Request>, inflight: seq<Request>, c: ClientId) {
    Asked(begun, c) == Asked(finished, c) + Asked(inflight, c)
  }

  lemma OrderedBegin(begun: seq<Request>, finished: seq<Request>, inflight: seq<Request>, r: Request, c: ClientId)
    requires IsOrdered(begun, finished, inflight, c)
    ensures IsOrdered(begun + [r], finished, inflight + [r], c)
  {
    var done, left, own := Asked(finished, c), Asked(inflight, c), Own(c)(r);
    assert Asked(begun + [r], c) == (done + left) + own by { FlatMapSnoc(begun, r, Own(c)); }
    assert Asked(inflight + [r], c) == left + own by { FlatMapSnoc(inflight, r, Own(c)); }
    ConcatAssoc(done, left, own);
  }

  lemma OrderedEnd(begun: seq<Request>, finished: seq<Request>, inflight: seq<Request>, i: nat, c: ClientId)
    requires i < |inflight| && IsOrdered(begun, finished, inflight, c)
    requires inflight[i].clientId == c ==> forall j :: 0 <= j < i ==> inflight[j].clientId != c
    ensures IsOrdered(begun, finished + [inflight[i]], inflight[..i] + inflight[i + 1..], c)
  {
    var r, a, b := inflight[i], inflight[..i], inflight[i + 1..];
    assert inflight == a + [r] + b;
    OrderedFinish(finished, a, r, b, c);
  }

  lemma OrderedStep(s: Stores, m: Move, c: ClientId)
    requires InOrder(s, m, c) && IsOrdered(s.begun, s.finished, s.inflight, c)
    ensures IsOrdered(Step(s, m).begun, Step(s, m).finished, Step(s, m).inflight, c)
  {
    if Enabled(s, m) {
      if m.AddToRegistry? {
        OrderedBegin(s.begun, s.finished, s.inflight, m.request, c);
      } else if m.AddToSession? {
        OrderedEnd(s.begun, s.finished, s.inflight, m.i, c);
      }
    }
  }

  lemma {:induction false} RunOrdered(moves: seq<Move>, c: ClientId)
    requires OrderedRun(moves, c)
    ensures IsOrdered(Run(moves).begun, Run(moves).finished, Run(moves).inflight, c)
  {
    if moves != [] {
      var n := |moves| - 1;
      var front := moves[..n];
      assert forall i :: 0 <= i < n ==> front[..i] == moves[..i];
      RunOrdered(front, c);
      OrderedStep(Run(front), moves[n], c);
    }
  }

  /** If the requests of client c finish in the order they began, in particular if c never has two in
      between or two handlers running, the registry's list of c is the session's list with the pending
      requests merged in; with none pending the two lists are equal, order and QoS included. */
  lemma ListsAgree(moves: seq<Move>, c: ClientId)
    requires OrderedRun(moves, c) || OneAtATime(moves, c) || OneConnection(moves, c)
    ensures var s := Run(moves);
            && SubsOf(s.registry, c) == UpsertAll(SessionSubs(s, c), Asked(s.inflight, c))
            && (Asked(s.inflight, c) == [] ==> SubsOf(s.registry, c) == SessionSubs(s, c))
  {
    if OneConnection(moves, c) {
      OneConnectionIsOneAtATime(moves, c);
    }
    if OneAtATime(moves, c) {
      OneAtATimeIsOrdered(moves, c);
    }
    RunInv(moves);
    RunOrdered(moves, c);
    var s := Run(moves);
    UpsertAllConcat([], Asked(s.finished, c), Asked(s.inflight, c));
  }

  /** Exactly when the two lists of a client agree, at any point of any interleaving: when the requests
      that reached the registry and those that reached the session have, for every topic, the same
      last request, and first ask for the topics in the same order. */
  lemma ListsAgreeExactly(moves: seq<Move>, c: ClientId)
    ensures var s := Run(moves);
            SubsOf(s.registry, c) == SessionSubs(s, c) <==> SameMerge(Asked(s.begun, c), Asked(s.finished, c))
  {
    RunInv(moves);
    var s := Run(moves);
    UpsertAllMeaning(Asked(s.begun, c));
    UpsertAllMeaning(Asked(s.finished, c));
    MergesAgreeExactly(SubsOf(s.registry, c), Asked(s.begun, c), SessionSubs(s, c), Asked(s.finished, c));
  }

  lemma RunTake(moves: seq<Move>, n: nat)
    requires n < |moves|
    ensures Run(moves[..n + 1]) == Step(Run(moves[..n]), moves[n])
  {
    assert moves[..n + 1][..n] == moves[..n];
  }

  lemma UpsertOne(topic: string, q: int, q': int)
    ensures UpsertAll([], [Subscription(topic, q)]) == [Subscription(topic, q)]
    ensures UpsertAll([Subscription(topic, q)], [Subscription(topic, q')]) == [Subscription(topic, q')]
  {
    var next := Subscription(topic, q');
    assert [next][..0] == [];
    assert UpsertAll([Subscription(topic, q)], []) == [Subscription(topic, q)];
  }

  /** A client connected twice, and two requests for one topic that overtake each other between the
      stores, one on each connection. */
  function Overtaking(c: ClientId, topic: string): seq<Move> {
    [Move.Connect(c, Claims(c, "", Admin), 0),
     Move.Connect(c, Claims(c, "", Admin), 1),
     AddToRegistry(Request(0, c, [Subscription(topic, 0)])),
     AddToRegistry(Request(1, c, [Subscription(topic, 1)])),
     AddToSession(1),
     AddToSession(0)]
  }

  lemma BothConnected(c: ClientId, topic: string) returns (s: Stores)
    ensures s == Run(Overtaking(c, topic)[..2])
    ensures s.registry == map[] && c in s.sessions && SessionSubs(s, c) == [] && s.inflight == []
    ensures s.handlers == map[0 := c, 1 := c]
  {
    var m := Overtaking(c, topic);
    var s0, s1 := Run(m[..0]), Run(m[..1]);
    RunTake(m, 0);
    assert s0 == EMPTY && s1 == Step(EMPTY, m[0]);
    assert s1.handlers == map[0 := c] && s1.registry == map[] && SessionSubs(s1, c) == [] && s1.inflight == [];
    RunTake(m, 1);
    s := Run(m[..2]);
  }

  lemma Begins(s: Stores, r: Request)
    requires Enabled(s, AddToRegistry(r))
    ensures var s' := Step(s, AddToRegistry(r));
            && s'.sessions == s.sessions && s'.handlers == s.handlers && s'.inflight == s.inflight + [r]
            && SubsOf(s'.registry, r.clientId) == UpsertAll(SubsOf(s.registry, r.clientId), r.subs)
  {
  }

  lemma BothBegun(c: ClientId, topic: string) returns (s: Stores)
    ensures s == Run(Overtaking(c, topic)[..4])
    ensures SubsOf(s.registry, c) == [Subscription(topic, 1)] && c in s.sessions && SessionSubs(s, c) == []
    ensures s.inflight == [Request(0, c, [Subscription(topic, 0)]), Request(1, c, [Subscription(topic, 1)])]
  {
    var m := Overtaking(c, topic);
    var s2 := BothConnected(c, topic);
    var r0, r1 := Request(0, c, [Subscription(topic, 0)]), Request(1, c, [Subscription(topic, 1)]);
    RunTake(m, 2);
    Begins(s2, r0);
    var s3 := Run(m[..3]);
    RunTake(m, 3);
    Begins(s3, r1);
    s := Run(m[..4]);
    UpsertOne(topic, 0, 1);
    assert s.inflight == [r0, r1];
  }

  /** Without that, the lists can disagree for good: for any client and topic, two requests that
      overtake each other leave different QoS values in the two stores with nothing in between. */
  lemma OvertakingDisagrees(c: ClientId, topic: string)
    ensures var s := Run(Overtaking(c, topic));
            && s.inflight == []
            && SubsOf(s.registry, c) == [Subscription(topic, 1)]
            && SessionSubs(s, c) == [Subscription(topic, 0)]
  {
    var m := Overtaking(c, topic);
    var s4 := BothBegun(c, topic);
    UpsertOne(topic, 1, 0);
    RunTake(m, 4);
    var s5 := Run(m[..5]);
    assert SessionSubs(s5, c) == [Subscription(topic, 1)] && s5.inflight == [Request(0, c, [Subscription(topic, 0)])];
    RunTake(m, 5);
    assert m[..6] == m;
  }
}
