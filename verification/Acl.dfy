/** Role-based access rules: internal/auth/acl/service.go, and what they say about topics. */
module Acl {
  import opened Types
  import opened Topics

  predicate HasSuffix(s: string, suffix: string) {
    |suffix| <= |s| && s[|s| - |suffix|..] == suffix
  }

  function DevicePrefix(id: string): string {
    "device/" + id + "/"
  }

  function CommandTopic(id: string): string {
    "device/" + id + "/command"
  }

  predicate CanPublish(claims: Claims, topic: string) {
    if claims.role == Admin then true
    else if claims.role != Device then false
    else if !(DevicePrefix(claims.deviceId) <= topic) then false
    else !HasSuffix(topic, "/command")
  }

  predicate CanSubscribe(claims: Claims, topic: string) {
    if claims.role == Admin then true
    else if claims.role != Device then false
    else topic == CommandTopic(claims.deviceId)
  }

  /** The levels of any topic below "device/{id}/". */
  lemma DeviceLevels(id: string, rest: string)
    ensures Split("device/" + id + "/" + rest) == ["device"] + Split(id) + Split(rest)
  {
    assert "device/" + id + "/" + rest == "device" + "/" + (id + "/" + rest);
    SplitConcat("device", id + "/" + rest);
    SplitConcat(id, rest);
    SplitSlashFree("device");
  }

  lemma CommandLevels(id: string)
    ensures Split(CommandTopic(id)) == ["device"] + Split(id) + ["command"]
  {
    assert CommandTopic(id) == "device/" + id + "/" + "command";
    DeviceLevels(id, "command");
    SplitSlashFree("command");
  }

  lemma LastLevelIsSuffix(topic: string)
    requires |Split(topic)| > 1 && Split(topic)[|Split(topic)| - 1] == "command"
    ensures HasSuffix(topic, "/command")
  {
    var ts := Split(topic);
    var front := ts[..|ts| - 1];
    assert ts == front + ["command"];
    JoinSplit(topic);
    CommandEnds(front);
  }

  lemma CommandEnds(front: seq<string>)
    requires front != []
    ensures HasSuffix(Join(front + ["command"]), "/command")
  {
    JoinSnoc(front, "command");
    EndsWith(Join(front), "/", "command");
    assert "/" + "command" == "/command";
  }

  lemma EndsWith(a: string, b: string, c: string)
    ensures HasSuffix(a + b + c, b + c)
  {
    assert a + b + c == a + (b + c);
  }

  // ---- The rules, said with levels ----

  ghost predicate IsBelow(topic: string, id: string, rest: string) {
    topic == "device/" + id + "/" + rest
  }

  lemma CutSuffix(topic: string) returns (front: string)
    requires HasSuffix(topic, "/command")
    ensures topic == front + "/" + "command"
  {
    front := topic[..|topic| - 8];
    ConcatAssoc(front, "/", "command");
    assert "/" + "command" == "/command";
    assert topic == front + topic[|topic| - 8..];
  }

  lemma SuffixMakesLevel(topic: string)
    requires HasSuffix(topic, "/command")
    ensures |Split(topic)| > 1 && Split(topic)[|Split(topic)| - 1] == "command"
  {
    var front := CutSuffix(topic);
    SplitConcat(front, "command");
    SplitSlashFree("command");
  }

  /** The suffix "/command" is a last level "command" below another level. */
  lemma SuffixIsLastLevel(topic: string)
    ensures HasSuffix(topic, "/command") <==> |Split(topic)| > 1 && Split(topic)[|Split(topic)| - 1] == "command"
  {
    if HasSuffix(topic, "/command") {
      SuffixMakesLevel(topic);
    } else if |Split(topic)| > 1 && Split(topic)[|Split(topic)| - 1] == "command" {
      LastLevelIsSuffix(topic);
    }
  }

  lemma BelowIsPrefix(topic: string, id: string)
    ensures DevicePrefix(id) <= topic <==> exists rest :: IsBelow(topic, id, rest)
  {
    if DevicePrefix(id) <= topic {
      var rest := topic[|DevicePrefix(id)|..];
      assert topic == DevicePrefix(id) + rest;
      assert IsBelow(topic, id, rest);
    }
    if rest :| IsBelow(topic, id, rest) {
      assert topic == DevicePrefix(id) + rest;
    }
  }

  /** Who may publish what: administrators anything, a device what lies below its own id unless the last
      level is "command", and nobody else anything. */
  lemma MayPublishExactly(claims: Claims, topic: string)
    ensures CanPublish(claims, topic) <==>
              || claims.role == Admin
              || (&& claims.role == Device && (exists rest :: IsBelow(topic, claims.deviceId, rest))
                  && Split(topic)[|Split(topic)| - 1] != "command")
  {
    BelowIsPrefix(topic, claims.deviceId);
    SuffixIsLastLevel(topic);
    if rest :| IsBelow(topic, claims.deviceId, rest) {
      DeviceLevels(claims.deviceId, rest);
    }
  }

  /** Who may subscribe to what: administrators to anything, a device to the levels "device", those of
      its own id, and "command", and nobody else to anything. */
  lemma MaySubscribeExactly(claims: Claims, topic: string)
    ensures CanSubscribe(claims, topic) <==>
              || claims.role == Admin
              || (claims.role == Device && Split(topic) == ["device"] + Split(claims.deviceId) + ["command"])
  {
    CommandLevels(claims.deviceId);
    JoinSplit(topic);
    JoinSplit(CommandTopic(claims.deviceId));
  }

  /** No device may publish what a device without a "#" level in its id may subscribe to. */
  lemma DevicePublishMissesCommand(publisher: Claims, topic: string, id: string)
    requires publisher.role == Device && CanPublish(publisher, topic)
    requires "#" !in Split(id)
    ensures !Matches(CommandTopic(id), topic)
  {
    CommandLevels(id);
    var fs, ts := Split(CommandTopic(id)), Split(topic);
    assert fs[..|fs|] == fs;
    HashAt(fs, |fs|);
    if Matches(CommandTopic(id), topic) {
      assert LevelAgrees(fs[|fs| - 1], ts[|fs| - 1]);
      LastLevelIsSuffix(topic);
    }
  }

  /** Some slash-free name below which every topic agrees with the levels before a "#". */
  function Impostor(levels: seq<string>): seq<string> {
    var k := FirstHash(levels);
    if k == 0 then ["d"] else levels[..k]
  }

  lemma ImpostorMatches(levels: seq<string>)
    requires "#" in levels
    ensures LevelsMatch(["device"] + levels + ["command"], ["device"] + Impostor(levels) + ["x"])
  {
    var k := FirstHash(levels);
    assert levels[..|levels|] == levels;
    var fs, ts := ["device"] + levels + ["command"], ["device"] + Impostor(levels) + ["x"];
    assert fs[..1 + k] == ["device"] + levels[..k];
    HashAt(fs, 1 + k);
    assert fs[..1 + k] == ts[..1 + k];
    forall i | 0 <= i < 1 + k ensures LevelAgrees(fs[i], ts[i]) {
      assert fs[i] == fs[..1 + k][i] == ts[..1 + k][i];
    }
  }

  lemma MayPublishBelowOwnPrefix(device: string)
    ensures CanPublish(Claims(device, device, Device), "device/" + device + "/" + "x")
  {
    var topic := "device/" + device + "/" + "x";
    assert DevicePrefix(device) <= topic;
    assert topic[|topic| - 1] == 'x';
  }

  /** An id with a "#" level is reached: some device may publish into its command filter. */
  lemma HashIdIsReached(id: string) returns (publisher: Claims, topic: string)
    requires "#" in Split(id)
    ensures publisher.role == Device && CanPublish(publisher, topic)
    ensures Matches(CommandTopic(id), topic)
  {
    var name := Impostor(Split(id));
    JoinSplit(id);
    assert forall p :: p in name ==> p == "d" || p in Split(id);
    var device := Join(name);
    publisher, topic := Claims(device, device, Device), "device/" + device + "/" + "x";
    MayPublishBelowOwnPrefix(device);
    SplitJoin(name);
    DeviceLevels(device, "x");
    SplitSlashFree("x");
    CommandLevels(id);
    ImpostorMatches(Split(id));
  }

  /** Exactly when the isolation of devices fails: when the subscriber's id has a "#" level. */
  lemma DeviceIsolationExact(id: string)
    ensures (exists publisher: Claims, topic ::
              publisher.role == Device && CanPublish(publisher, topic) && Matches(CommandTopic(id), topic))
       <==> "#" in Split(id)
  {
    if "#" in Split(id) {
      var publisher, topic := HashIdIsReached(id);
    } else {
      forall publisher: Claims, topic | publisher.role == Device && CanPublish(publisher, topic)
        ensures !Matches(CommandTopic(id), topic)
      {
        DevicePublishMissesCommand(publisher, topic, id);
      }
    }
  }

  /** The command filter of an id without wildcard levels accepts its own command topic only. */
  lemma CommandFilterIsExact(id: string, topic: string)
    requires !HasWildcard(id)
    ensures Matches(CommandTopic(id), topic) <==> topic == CommandTopic(id)
  {
    CommandLevels(id);
    PlainFilterIsExact(CommandTopic(id), topic);
  }

  /** The owner of a topic a device may publish is that device exactly when its id is one level. */
  lemma TopicOwnerExact(claims: Claims, topic: string)
    requires claims.role == Device && CanPublish(claims, topic)
    ensures TopicOwner(topic) == claims.deviceId <==> '/' !in claims.deviceId
  {
    var id := claims.deviceId;
    var rest := topic[|DevicePrefix(id)|..];
    assert topic == "device/" + id + "/" + rest;
    DeviceLevels(id, rest);
    JoinSplit(id);
    assert Split(id)[0] in Split(id);
    assert TopicOwner(topic) == Split(id)[0];
    if '/' !in id {
      SplitSlashFree(id);
    }
  }
}
