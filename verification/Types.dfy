/** The records of pkg/qtt/types and of the token claims, and small sequence helpers shared by
    every module.  Payloads are opaque text; time is an integer number of ticks, where tick 0
    plays the role of Go's zero time. */
module Types {

  datatype Option<+T> = None | Some(value: T)

  type ClientId = string
  type PacketId = string
  type ConnId = nat

  datatype Kind =
    | Connect | ConnAck | Publish | PubAck | Subscribe | SubAck
    | Ping | Pong | Disconnect | Error | Other(name: string)

  datatype Subscription = Subscription(topic: string, qos: int)

  datatype Role = Admin | Device | OtherRole(name: string)

  datatype Claims = Claims(clientId: ClientId, deviceId: string, role: Role)

  /** The codes of ERROR packets. */
  datatype Code =
    | NoCode | AuthFailed | RateLimited | SubscribeFailed | PublishFailed | UnsupportedPacket

  datatype Packet = Packet(
    kind: Kind,
    packetId: PacketId,
    clientId: ClientId,
    topic: string,
    qos: int,
    payload: string,
    timestamp: int,
    subscriptions: seq<Subscription>,
    sessionPresent: bool,
    code: Code)

  const BLANK := Packet(Other(""), "", "", "", 0, "", 0, [], false, NoCode)

  /** The elements of `s` that satisfy `p`, in order. */
  function Filter<T(!new)>(s: seq<T>, p: T -> bool): (r: seq<T>)
    ensures forall x :: x in r <==> x in s && p(x)
  {
    if s == [] then []
    else
      var front := Filter(s[..|s| - 1], p);
      assert s == s[..|s| - 1] + [s[|s| - 1]];
      if p(s[|s| - 1]) then front + [s[|s| - 1]] else front
  }

  function Count<T(!new)>(s: seq<T>, p: T -> bool): nat {
    |Filter(s, p)|
  }

  lemma FilterSnoc<T(!new)>(s: seq<T>, x: T, p: T -> bool)
    ensures Filter(s + [x], p) == Filter(s, p) + if p(x) then [x] else []
  {
    assert (s + [x])[..|s|] == s;
  }

  lemma {:induction false} FilterConcat<T(!new)>(s: seq<T>, t: seq<T>, p: T -> bool)
    ensures Filter(s + t, p) == Filter(s, p) + Filter(t, p)
  {
    if t == [] {
      assert s + t == s;
    } else {
      var front, last := t[..|t| - 1], t[|t| - 1];
      assert t == front + [last];
      assert s + t == (s + front) + [last];
      FilterConcat(s, front, p);
      FilterSnoc(s + front, last, p);
      FilterSnoc(front, last, p);
    }
  }

  lemma CountSnoc<T(!new)>(s: seq<T>, x: T, p: T -> bool)
    ensures Count(s + [x], p) == Count(s, p) + if p(x) then 1 else 0
  {
    FilterSnoc(s, x, p);
  }

  /** Concatenation of the images of the elements of `s`. */
  function FlatMap<A, B>(s: seq<A>, f: A -> seq<B>): seq<B> {
    if s == [] then [] else FlatMap(s[..|s| - 1], f) + f(s[|s| - 1])
  }

  lemma FlatMapSnoc<A, B>(s: seq<A>, x: A, f: A -> seq<B>)
    ensures FlatMap(s + [x], f) == FlatMap(s, f) + f(x)
  {
    assert (s + [x])[..|s|] == s;
  }

  lemma {:induction false} FlatMapConcat<A, B>(s: seq<A>, t: seq<A>, f: A -> seq<B>)
    ensures FlatMap(s + t, f) == FlatMap(s, f) + FlatMap(t, f)
  {
    if t == [] {
      assert s + t == s;
    } else {
      var front, last := t[..|t| - 1], t[|t| - 1];
      assert t == front + [last];
      assert s + t == (s + front) + [last];
      FlatMapConcat(s, front, f);
      FlatMapSnoc(s + front, last, f);
      FlatMapSnoc(front, last, f);
      assert FlatMap(s, f) + (FlatMap(front, f) + f(last)) == (FlatMap(s, f) + FlatMap(front, f)) + f(last);
    }
  }

  lemma {:induction false} FlatMapMember<A(!new), B>(s: seq<A>, f: A -> seq<B>, y: B)
    ensures y in FlatMap(s, f) <==> exists x :: x in s && y in f(x)
  {
    if s != [] {
      var front, last := s[..|s| - 1], s[|s| - 1];
      assert s == front + [last];
      FlatMapMember(front, f, y);
    }
  }

  lemma ConcatSuffix<T>(a: seq<T>, b: seq<T>)
    ensures a <= a + b && (a + b)[|a|..] == b
  {
  }

  lemma TakeConcat<T>(a: seq<T>, b: seq<T>, n: nat)
    requires n <= |a|
    ensures (a + b)[..n] == a[..n]
  {
  }

  lemma ConcatAssoc<T>(a: seq<T>, b: seq<T>, c: seq<T>)
    ensures (a + b) + c == a + (b + c)
  {
  }

  /** Taking one element out of a sequence takes its image out of the flat map. */
  lemma FlatMapRemove<A, B>(a: seq<A>, x: A, b: seq<A>, f: A -> seq<B>)
    ensures multiset(FlatMap(a + [x] + b, f)) == multiset(FlatMap(a + b, f)) + multiset(f(x))
  {
    var fa, fx, fb := FlatMap(a, f), f(x), FlatMap(b, f);
    assert FlatMap(a + [x] + b, f) == fa + fx + fb by {
      FlatMapConcat(a + [x], b, f);
      FlatMapSnoc(a, x, f);
    }
    assert FlatMap(a + b, f) == fa + fb by { FlatMapConcat(a, b, f); }
  }

  /** Taking the same element out of two sequences with the same elements leaves the same elements. */
  lemma RemoveCommon<A>(front: seq<A>, x: A, a: seq<A>, b: seq<A>)
    requires multiset(front + [x]) == multiset(a + [x] + b)
    ensures multiset(front) == multiset(a + b)
  {
    assert multiset(front + [x]) == multiset(front) + multiset{x};
    assert multiset(a + [x] + b) == multiset(a) + multiset{x} + multiset(b);
    assert multiset(a + b) == multiset(a) + multiset(b);
    assert multiset(front) == multiset(front + [x]) - multiset{x};
  }

  lemma SplitAt<A>(t: seq<A>, x: A) returns (a: seq<A>, b: seq<A>)
    requires x in t
    ensures t == a + [x] + b
  {
    var i :| 0 <= i < |t| && t[i] == x;
    a, b := t[..i], t[i + 1..];
  }

  /** Sequences with the same elements have flat maps with the same elements. */
  lemma {:induction false} FlatMapPermute<A, B>(s: seq<A>, t: seq<A>, f: A -> seq<B>)
    requires multiset(s) == multiset(t)
    ensures multiset(FlatMap(s, f)) == multiset(FlatMap(t, f))
    decreases |s|
  {
    assert |s| == |multiset(s)| == |multiset(t)| == |t|;
    if s != [] {
      var front, last := s[..|s| - 1], s[|s| - 1];
      assert s == front + [last];
      assert last in multiset(t);
      var a, b := SplitAt(t, last);
      RemoveCommon(front, last, a, b);
      FlatMapPermute(front, a + b, f);
      FlatMapRemove(a, last, b, f);
    }
  }

  // ---- Sequences sorted by a key ----

  ghost predicate IncreasingBy<T(!new)>(s: seq<T>, key: T -> int) {
    forall i, j :: 0 <= i < j < |s| ==> key(s[i]) < key(s[j])
  }

  ghost function SetOf<T(!new)>(s: seq<T>): set<T> {
    set x | x in s
  }

  /** The last element of an increasing sequence is the only one with the greatest key. */
  lemma LastIsGreatest<T(!new)>(s: seq<T>, key: T -> int)
    requires IncreasingBy(s, key) && s != []
    ensures var front, last := s[..|s| - 1], s[|s| - 1];
            && IncreasingBy(front, key) && last in SetOf(s) && SetOf(front) == SetOf(s) - {last}
            && forall x :: x in SetOf(s) ==> x == last || key(x) < key(last)
  {
    var front, last := s[..|s| - 1], s[|s| - 1];
    assert s == front + [last];
    assert last !in front;
  }

  lemma {:induction false} IncreasingSize<T(!new)>(s: seq<T>, key: T -> int)
    requires IncreasingBy(s, key)
    ensures |SetOf(s)| == |s|
  {
    if s != [] {
      LastIsGreatest(s, key);
      IncreasingSize(s[..|s| - 1], key);
    }
  }

  /** Increasing sequences with the same elements are the same sequence. */
  lemma {:induction false} IncreasingUnique<T(!new)>(s: seq<T>, t: seq<T>, key: T -> int)
    requires IncreasingBy(s, key) && IncreasingBy(t, key) && SetOf(s) == SetOf(t)
    ensures s == t
    decreases |s|
  {
    IncreasingSize(s, key);
    IncreasingSize(t, key);
    if s != [] {
      LastIsGreatest(s, key);
      LastIsGreatest(t, key);
      IncreasingUnique(s[..|s| - 1], t[..|t| - 1], key);
      assert s == s[..|s| - 1] + [s[|s| - 1]];
      assert t == t[..|t| - 1] + [t[|t| - 1]];
    }
  }

  lemma {:induction false} FilterIncreasing<T(!new)>(s: seq<T>, key: T -> int, p: T -> bool)
    requires IncreasingBy(s, key)
    ensures IncreasingBy(Filter(s, p), key)
  {
    if s != [] {
      var front, last := s[..|s| - 1], s[|s| - 1];
      FilterIncreasing(front, key, p);
      var kept := Filter(front, p);
      forall i | 0 <= i < |kept| ensures key(kept[i]) < key(last) {
        assert kept[i] in kept;
        assert kept[i] in front;
      }
    }
  }
}
