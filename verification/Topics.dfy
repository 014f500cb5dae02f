/** Topic strings and wildcard matching: pkg/qtt/utils/helpers.go. */
module Topics {

  ghost predicate SlashFree(parts: seq<string>) {
    forall p :: p in parts ==> '/' !in p
  }

  function Join(parts: seq<string>): string
    requires parts != []
  {
    if |parts| == 1 then parts[0] else parts[0] + "/" + Join(parts[1..])
  }

  /** What one leading character does to the levels of the rest. */
  function Lead(c: char, rest: seq<string>): seq<string>
    requires rest != []
  {
    if c == '/' then [""] + rest else [[c] + rest[0]] + rest[1..]
  }

  /** strings.Split(s, "/"): the levels of a topic.  The empty topic has one empty level. */
  function Split(s: string): (parts: seq<string>)
    ensures parts != []
  {
    if s == "" then [""]
    else Lead(s[0], Split(s[1..]))
  }

  /** Join inverts Split. */
  lemma {:induction false} JoinSplit(s: string)
    ensures SlashFree(Split(s))
    ensures Join(Split(s)) == s
  {
    if s != "" {
      JoinSplit(s[1..]);
      var parts, rest := Split(s), Split(s[1..]);
      if s[0] == '/' {
        assert parts[1..] == rest;
      } else {
        assert parts[1..] == rest[1..];
      }
    }
  }

  lemma {:induction false} SplitSlashFree(s: string)
    requires '/' !in s
    ensures Split(s) == [s]
  {
    if s != "" {
      assert s == [s[0]] + s[1..];
      SplitSlashFree(s[1..]);
    }
  }

  lemma SplitLead(c: char, tail: string)
    ensures Split([c] + tail) == Lead(c, Split(tail))
  {
    assert ([c] + tail)[1..] == tail;
  }

  lemma LeadConcat(c: char, left: seq<string>, right: seq<string>)
    requires left != []
    ensures Lead(c, left + right) == Lead(c, left) + right
  {
    assert (left + right)[1..] == left[1..] + right;
  }

  /** A separator splits exactly where it stands. */
  lemma {:induction false} SplitConcat(a: string, b: string)
    ensures Split(a + "/" + b) == Split(a) + Split(b)
  {
    if a == "" {
      assert a + "/" + b == ['/'] + b;
      SplitLead('/', b);
    } else {
      var c, tail := a[0], a[1..];
      assert a == [c] + tail;
      assert a + "/" + b == [c] + (tail + "/" + b);
      SplitLead(c, tail + "/" + b);
      SplitLead(c, tail);
      SplitConcat(tail, b);
      LeadConcat(c, Split(tail), Split(b));
    }
  }

  /** Split inverts Join, so Split is the only slash-free decomposition of a string. */
  lemma {:induction false} SplitJoin(parts: seq<string>)
    requires parts != [] && SlashFree(parts)
    ensures Split(Join(parts)) == parts
  {
    assert parts[0] in parts;
    SplitSlashFree(parts[0]);
    if |parts| > 1 {
      var tail := parts[1..];
      assert forall p :: p in tail ==> p in parts;
      SplitJoin(tail);
      SplitConcat(parts[0], Join(tail));
      assert parts == [parts[0]] + tail;
    } else {
      assert parts == [parts[0]];
    }
  }

  lemma JoinSnoc(parts: seq<string>, last: string)
    requires parts != []
    ensures Join(parts + [last]) == Join(parts) + "/" + last
  {
    if |parts| > 1 {
      JoinSnoc(parts[1..], last);
      assert (parts + [last])[1..] == parts[1..] + [last];
    } else {
      assert (parts + [last])[1..] == [last];
    }
  }

  /** Index of the first "#" level, or the number of levels. */
  function FirstHash(levels: seq<string>): (h: nat)
    ensures h <= |levels|
    ensures "#" !in levels[..h]
    ensures h < |levels| ==> levels[h] == "#"
  {
    if levels == [] || levels[0] == "#" then 0
    else
      var h := FirstHash(levels[1..]);
      assert levels[..1 + h] == [levels[0]] + levels[1..][..h];
      1 + h
  }

  predicate LevelAgrees(f: string, t: string) {
    f == "+" || f == t
  }

  /** What a filter means: up to the first "#" the levels agree one by one; with a "#" the topic
      may go on (or stop right there), without one it must have as many levels as the filter. */
  predicate LevelsMatch(fs: seq<string>, ts: seq<string>) {
    var h := FirstHash(fs);
    && (if h < |fs| then h <= |ts| else h == |ts|)
    && forall i :: 0 <= i < h ==> LevelAgrees(fs[i], ts[i])
  }

  predicate Matches(filter: string, topic: string) {
    LevelsMatch(Split(filter), Split(topic))
  }

  /** The loop of MatchTopic, with its early exits. */
  method MatchTopic(filter: string, topic: string) returns (r: bool)
    ensures r == Matches(filter, topic)
  {
    var filterParts, topicParts := Split(filter), Split(topic);
    var idx := 0;
    while idx < |filterParts|
      invariant 0 <= idx <= |filterParts| && AgreeUpTo(filterParts, topicParts, idx)
    {
      Decide(filterParts, topicParts, idx);
      if idx >= |topicParts| {
        return filterParts[idx] == "#";
      }
      if filterParts[idx] == "#" {
        return true;
      } else if filterParts[idx] != "+" && filterParts[idx] != topicParts[idx] {
        return false;
      }
      idx := idx + 1;
    }
    DecideAtEnd(filterParts, topicParts);
    return |filterParts| == |topicParts|;
  }

  /** The first k levels of the filter hold no "#" and agree with the topic. */
  ghost predicate AgreeUpTo(fs: seq<string>, ts: seq<string>, k: nat) {
    && k <= |fs| && k <= |ts| && "#" !in fs[..k]
    && forall i :: 0 <= i < k ==> LevelAgrees(fs[i], ts[i])
  }

  /** What level k decides when the levels before it agree. */
  lemma Decide(fs: seq<string>, ts: seq<string>, k: nat)
    requires AgreeUpTo(fs, ts, k) && k < |fs|
    ensures fs[k] == "#" ==> LevelsMatch(fs, ts)
    ensures fs[k] != "#" && (k >= |ts| || !LevelAgrees(fs[k], ts[k])) ==> !LevelsMatch(fs, ts)
    ensures fs[k] != "#" && k < |ts| && LevelAgrees(fs[k], ts[k]) ==> AgreeUpTo(fs, ts, k + 1)
  {
    HashAt(fs, k);
    assert fs[..k + 1] == fs[..k] + [fs[k]];
  }

  lemma DecideAtEnd(fs: seq<string>, ts: seq<string>)
    requires AgreeUpTo(fs, ts, |fs|)
    ensures LevelsMatch(fs, ts) <==> |fs| == |ts|
  {
    assert fs[..|fs|] == fs;
    HashAt(fs, |fs|);
  }

  /** With no "#" before index k, the first "#" is at k exactly when level k is a "#". */
  lemma HashAt(levels: seq<string>, k: nat)
    requires k <= |levels| && "#" !in levels[..k]
    ensures k <= FirstHash(levels)
    ensures k < |levels| && levels[k] == "#" ==> FirstHash(levels) == k
    ensures k < |levels| && levels[k] != "#" ==> k < FirstHash(levels)
  {
    var h := FirstHash(levels);
    if k < h {
      assert levels[..h][k] == levels[k];
    }
  }

  /** Levels after the first "#" are irrelevant: filters that agree up to and including a "#"
      accept the same topics, whatever follows. */
  lemma HashCutsFilter(before: seq<string>, after1: seq<string>, after2: seq<string>, topic: string)
    requires SlashFree(before) && SlashFree(after1) && SlashFree(after2)
    ensures Matches(Join(before + ["#"] + after1), topic) == Matches(Join(before + ["#"] + after2), topic)
  {
    var stem := before + ["#"];
    SplitJoin(stem + after1);
    SplitJoin(stem + after2);
    HashInStem(stem, after1);
    HashInStem(stem, after2);
  }

  lemma HashInStem(stem: seq<string>, after: seq<string>)
    requires "#" in stem
    ensures FirstHash(stem + after) == FirstHash(stem) < |stem|
  {
    var k := FirstHash(stem);
    assert stem[..|stem|] == stem;
    assert (stem + after)[..k] == stem[..k];
    HashAt(stem + after, k);
  }

  predicate HasWildcard(id: string) {
    "+" in Split(id) || "#" in Split(id)
  }

  /** A filter without wildcard levels matches itself and nothing else. */
  lemma PlainFilterIsExact(filter: string, topic: string)
    requires !HasWildcard(filter)
    ensures Matches(filter, topic) <==> topic == filter
  {
    var fs, ts := Split(filter), Split(topic);
    assert FirstHash(fs) == |fs|;
    JoinSplit(filter);
    JoinSplit(topic);
    if Matches(filter, topic) {
      forall i | 0 <= i < |fs| ensures fs[i] == ts[i] {
        assert fs[i] in fs;
      }
      assert fs == ts;
      assert Join(fs) == Join(ts);
    }
  }

  /** Every string, read as a filter, accepts itself. */
  lemma AcceptsItself(topic: string)
    ensures Matches(topic, topic)
  {
  }

  /** TopicOwner: the second level of a topic under "device". */
  function TopicOwner(topic: string): string {
    var parts := Split(topic);
    if |parts| < 2 then "" else if parts[0] != "device" then "" else parts[1]
  }
}
