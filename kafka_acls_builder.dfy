/**
 * Expansion of a workload-level intent into the flat list of grants the broker
 * stores. Each builder fills a preallocated array by index, as the source does,
 * and is proved equal to a reference function. The lemmas below show that the
 * flat list determines the intent's project, principal and group (consumer) and
 * its project, principal, read topics and write topics (streams); the id and
 * the metadata are not represented in it.
 */
module KafkaAclsBuilder {
  import opened Wrappers
  import opened Sarama
  import opened KafkaClient

  /** One grant: a resource pattern and the ACL on it. */
  datatype AclResourceInfo = AclResourceInfo(resource: Resource, acl: Acl)

  datatype AclResources = AclResources(resources: seq<AclResourceInfo>)

  /** Every grant allows `principal`, from any host. */
  predicate AllowedForPrincipal(grants: seq<AclResourceInfo>, principal: string) {
    forall g :: g in grants ==>
      g.acl.principal == principal && g.acl.host == AnyHost && g.acl.permissionType == PermissionAllow
  }

  /** Converts the declarative input to an intent, then hands the intent to the builder. */
  function BuildAcls<D, I>(d: D, convert: D -> I, builder: I -> (AclResources, Option<Error>))
    : (r: (I, AclResources, Option<Error>))
    ensures r.0 == convert(d)
    ensures (r.1, r.2) == builder(convert(d))
  {
    var acl := convert(d);
    var (resources, err) := builder(acl);
    (acl, resources, err)
  }

  function TopicGrant(topic: string, principal: string, op: AclOperation): AclResourceInfo {
    AclResourceInfo(Resource(topic, ResourceTopic, PatternLiteral), Acl(principal, AnyHost, op, PermissionAllow))
  }

  /** Reference for a `createTopicAcls` loop: one Literal topic grant per topic, in order. */
  function TopicGrants(topics: seq<string>, principal: string, op: AclOperation): (r: seq<AclResourceInfo>)
    ensures |r| == |topics|
    ensures forall k :: 0 <= k < |topics| ==> r[k] == TopicGrant(topics[k], principal, op)
    ensures AllowedForPrincipal(r, principal)
  {
    if topics == [] then []
    else [TopicGrant(topics[0], principal, op)] + TopicGrants(topics[1..], principal, op)
  }

  function KStreamGrant(project: string, principal: string, resourceType: AclResourceType,
                        op: AclOperation): AclResourceInfo
  {
    var (resource, acl) := CreateKStreamAcl(project, principal, resourceType, op);
    AclResourceInfo(resource, acl)
  }

  /** Reference for the consumer builder. */
  function ConsumerAcls(c: ConsumerAcl): (AclResources, Option<Error>) {
    var topic := Resource(c.project, ResourceTopic, PatternPrefixed);
    (AclResources([
       AclResourceInfo(topic, Acl(c.principal, AnyHost, OperationDescribe, PermissionAllow)),
       AclResourceInfo(topic, Acl(c.principal, AnyHost, OperationRead, PermissionAllow)),
       AclResourceInfo(Resource(c.group, ResourceGroup, PatternLiteral),
                       Acl(c.principal, AnyHost, OperationRead, PermissionAllow))]),
     None)
  }

  /** Reference for the Kafka Streams builder. */
  function StreamsAcls(s: KafkaStreamsAcl): (AclResources, Option<Error>) {
    (AclResources(
       TopicGrants(s.readTopics, s.principal, OperationRead)
       + TopicGrants(s.writeTopics, s.principal, OperationWrite)
       + [KStreamGrant(s.project, s.principal, ResourceTopic, OperationAll),
          KStreamGrant(s.project, s.principal, ResourceGroup, OperationRead)]),
     None)
  }

  /** A list laid out part by part as the streams builder fills its array is the reference list. */
  lemma StreamsAclsFromParts(s: KafkaStreamsAcl, infos: seq<AclResourceInfo>)
    requires |infos| == |s.readTopics| + |s.writeTopics| + 2
    requires forall k :: 0 <= k < |s.readTopics| ==>
      infos[k] == TopicGrant(s.readTopics[k], s.principal, OperationRead)
    requires forall k :: 0 <= k < |s.writeTopics| ==>
      infos[|s.readTopics| + k] == TopicGrant(s.writeTopics[k], s.principal, OperationWrite)
    requires infos[|infos| - 2] == KStreamGrant(s.project, s.principal, ResourceTopic, OperationAll)
    requires infos[|infos| - 1] == KStreamGrant(s.project, s.principal, ResourceGroup, OperationRead)
    ensures infos == StreamsAcls(s).0.resources
  {
    var nRead, nWrite := |s.readTopics|, |s.writeTopics|;
    var readGrants := TopicGrants(s.readTopics, s.principal, OperationRead);
    var writeGrants := TopicGrants(s.writeTopics, s.principal, OperationWrite);
    var g := readGrants + writeGrants
             + [KStreamGrant(s.project, s.principal, ResourceTopic, OperationAll),
                KStreamGrant(s.project, s.principal, ResourceGroup, OperationRead)];
    forall k | 0 <= k < |infos| ensures infos[k] == g[k] {
      if k < nRead {
        assert g[k] == readGrants[k];
      } else if k < nRead + nWrite {
        assert g[k] == writeGrants[k - nRead];
        assert infos[nRead + (k - nRead)] == writeGrants[k - nRead];
      }
    }
  }

  method ConsumerAclsBuilder(consumerAcl: ConsumerAcl) returns (r: AclResources, err: Option<Error>)
    ensures (r, err) == ConsumerAcls(consumerAcl)
    ensures err.None? && |r.resources| == 3
    ensures forall k :: 0 <= k < 2 ==>
      r.resources[k].resource == Resource(consumerAcl.project, ResourceTopic, PatternPrefixed)
    ensures r.resources[0].acl.operation == OperationDescribe
    ensures r.resources[1].acl.operation == OperationRead
    ensures r.resources[2].resource == Resource(consumerAcl.group, ResourceGroup, PatternLiteral)
    ensures r.resources[2].acl.operation == OperationRead
    ensures AllowedForPrincipal(r.resources, consumerAcl.principal)
  {
    var resources := new AclResourceInfo[3];
    var resource := Resource(consumerAcl.project, ResourceTopic, PatternPrefixed);
    var operations := [OperationDescribe, OperationRead];
    var i := 0;
    for j := 0 to |operations|
      invariant i == j
      invariant forall k :: 0 <= k < i ==>
        resources[k] == AclResourceInfo(resource, Acl(consumerAcl.principal, AnyHost, operations[k], PermissionAllow))
    {
      var acl := Acl(consumerAcl.principal, AnyHost, operations[j], PermissionAllow);
      resources[i] := AclResourceInfo(resource, acl);
      i := i + 1;
    }
    resource := Resource(consumerAcl.group, ResourceGroup, PatternLiteral);
    var acl := Acl(consumerAcl.principal, AnyHost, OperationRead, PermissionAllow);
    resources[2] := AclResourceInfo(resource, acl);
    r, err := AclResources(resources[..]), None;
    assert r.resources == ConsumerAcls(consumerAcl).0.resources;
  }

  method KafkaStreamsAclsBuilder(kStreamsAcl: KafkaStreamsAcl) returns (r: AclResources, err: Option<Error>)
    ensures (r, err) == StreamsAcls(kStreamsAcl)
    ensures err.None?
    ensures |r.resources| == |kStreamsAcl.readTopics| + |kStreamsAcl.writeTopics| + 2
  {
    var nRead, nWrite := |kStreamsAcl.readTopics|, |kStreamsAcl.writeTopics|;
    var resourceInfos := new AclResourceInfo[nRead + nWrite + 2];
    var i := 0;
    var resources, acls := CreateTopicAcls(kStreamsAcl.readTopics, kStreamsAcl.principal, OperationRead);
    for j := 0 to |resources|
      invariant i == j
      invariant forall k :: 0 <= k < i ==>
        resourceInfos[k] == TopicGrant(kStreamsAcl.readTopics[k], kStreamsAcl.principal, OperationRead)
    {
      resourceInfos[i] := AclResourceInfo(resources[j], acls[j]);
      i := i + 1;
    }

    resources, acls := CreateTopicAcls(kStreamsAcl.writeTopics, kStreamsAcl.principal, OperationWrite);
    for j := 0 to |resources|
      invariant i == nRead + j
      invariant forall k :: 0 <= k < nRead ==>
        resourceInfos[k] == TopicGrant(kStreamsAcl.readTopics[k], kStreamsAcl.principal, OperationRead)
      invariant forall k :: 0 <= k < j ==>
        resourceInfos[nRead + k] == TopicGrant(kStreamsAcl.writeTopics[k], kStreamsAcl.principal, OperationWrite)
    {
      resourceInfos[i] := AclResourceInfo(resources[j], acls[j]);
      i := i + 1;
    }

    var (resource, acl) := CreateKStreamAcl(kStreamsAcl.project, kStreamsAcl.principal, ResourceTopic, OperationAll);
    resourceInfos[i] := AclResourceInfo(resource, acl);
    var (groupResource, groupAcl) := CreateKStreamAcl(kStreamsAcl.project, kStreamsAcl.principal, ResourceGroup, OperationRead);
    resourceInfos[i + 1] := AclResourceInfo(groupResource, groupAcl);

    r, err := AclResources(resourceInfos[..]), None;
    StreamsAclsFromParts(kStreamsAcl, resourceInfos[..]);
  }

  /**
   * The layout of the streams grants: the read topics as Literal Read grants,
   * then the write topics as Literal Write grants, both in list order, then
   * All on the project's topic prefix and Read on the project's group prefix;
   * every grant allows the intent's principal from any host.
   */
  lemma StreamsAclsLayout(s: KafkaStreamsAcl)
    ensures var g := StreamsAcls(s).0.resources;
      && StreamsAcls(s).1.None?
      && |g| == |s.readTopics| + |s.writeTopics| + 2
      && (forall k :: 0 <= k < |s.readTopics| ==> g[k] == TopicGrant(s.readTopics[k], s.principal, OperationRead))
      && (forall k :: 0 <= k < |s.writeTopics| ==>
            g[|s.readTopics| + k] == TopicGrant(s.writeTopics[k], s.principal, OperationWrite))
      && g[|g| - 2].resource == Resource(s.project, ResourceTopic, PatternPrefixed)
      && g[|g| - 2].acl.operation == OperationAll
      && g[|g| - 1].resource == Resource(s.project, ResourceGroup, PatternPrefixed)
      && g[|g| - 1].acl.operation == OperationRead
      && AllowedForPrincipal(g, s.principal)
  {
    var readGrants := TopicGrants(s.readTopics, s.principal, OperationRead);
    var writeGrants := TopicGrants(s.writeTopics, s.principal, OperationWrite);
    var tail := [KStreamGrant(s.project, s.principal, ResourceTopic, OperationAll),
                 KStreamGrant(s.project, s.principal, ResourceGroup, OperationRead)];
    var g := readGrants + writeGrants + tail;
    assert StreamsAcls(s).0.resources == g;
    assert forall k :: 0 <= k < |s.readTopics| ==> g[k] == readGrants[k];
    assert forall k :: 0 <= k < |s.writeTopics| ==> g[|s.readTopics| + k] == writeGrants[k];
    assert AllowedForPrincipal(tail, s.principal);
  }

  /** Names of the Literal topic grants with operation `op`, in list order. */
  function LiteralTopics(grants: seq<AclResourceInfo>, op: AclOperation): seq<string> {
    if grants == [] then []
    else LiteralTopicOf(grants[0], op) + LiteralTopics(grants[1..], op)
  }

  /** The topic a single grant names, when it is a Literal topic grant for `op`. */
  function LiteralTopicOf(g: AclResourceInfo, op: AclOperation): seq<string> {
    if g.resource.resourceType == ResourceTopic && g.resource.resourcePatternType == PatternLiteral
       && g.acl.operation == op
    then [g.resource.resourceName] else []
  }

  lemma {:induction false} LiteralTopicsAppend(a: seq<AclResourceInfo>, b: seq<AclResourceInfo>, op: AclOperation)
    ensures LiteralTopics(a + b, op) == LiteralTopics(a, op) + LiteralTopics(b, op)
  {
    if a != [] {
      assert (a + b)[0] == a[0] && (a + b)[1..] == a[1..] + b;
      LiteralTopicsAppend(a[1..], b, op);
      var head := LiteralTopicOf(a[0], op);
      assert LiteralTopics(a + b, op) == head + LiteralTopics(a[1..] + b, op);
      assert head + (LiteralTopics(a[1..], op) + LiteralTopics(b, op))
          == (head + LiteralTopics(a[1..], op)) + LiteralTopics(b, op);
    } else {
      assert a + b == b;
    }
  }

  lemma {:induction false} LiteralTopicsOfTopicGrants(topics: seq<string>, principal: string,
                                                      op: AclOperation, asked: AclOperation)
    ensures LiteralTopics(TopicGrants(topics, principal, op), asked) == if op == asked then topics else []
  {
    if topics != [] {
      LiteralTopicsOfTopicGrants(topics[1..], principal, op, asked);
    }
  }

  /**
   * The read and write topics of a streams intent can be read back from its
   * flat grants: they are the Literal Read and Literal Write topic grants, in
   * order; the project-wide Prefixed grants do not interfere.
   */
  lemma StreamsAclsRecoverTopics(s: KafkaStreamsAcl)
    ensures LiteralTopics(StreamsAcls(s).0.resources, OperationRead) == s.readTopics
    ensures LiteralTopics(StreamsAcls(s).0.resources, OperationWrite) == s.writeTopics
  {
    var readGrants := TopicGrants(s.readTopics, s.principal, OperationRead);
    var writeGrants := TopicGrants(s.writeTopics, s.principal, OperationWrite);
    var tail := [KStreamGrant(s.project, s.principal, ResourceTopic, OperationAll),
                 KStreamGrant(s.project, s.principal, ResourceGroup, OperationRead)];
    forall op | op in {OperationRead, OperationWrite}
      ensures LiteralTopics(readGrants + writeGrants + tail, op)
           == LiteralTopics(readGrants, op) + LiteralTopics(writeGrants, op) + []
    {
      LiteralTopicsAppend(readGrants + writeGrants, tail, op);
      LiteralTopicsAppend(readGrants, writeGrants, op);
      assert LiteralTopics(tail, op) == [] by {
        assert LiteralTopics(tail[1..][1..], op) == [];
        assert LiteralTopics(tail[1..], op) == [];
      }
    }
    LiteralTopicsOfTopicGrants(s.readTopics, s.principal, OperationRead, OperationRead);
    LiteralTopicsOfTopicGrants(s.readTopics, s.principal, OperationRead, OperationWrite);
    LiteralTopicsOfTopicGrants(s.writeTopics, s.principal, OperationWrite, OperationRead);
    LiteralTopicsOfTopicGrants(s.writeTopics, s.principal, OperationWrite, OperationWrite);
  }

  /** Two streams intents with the same grants agree on everything the grants encode. */
  lemma StreamsAclsInjective(s1: KafkaStreamsAcl, s2: KafkaStreamsAcl)
    requires StreamsAcls(s1) == StreamsAcls(s2)
    ensures s1.project == s2.project && s1.principal == s2.principal
    ensures s1.readTopics == s2.readTopics && s1.writeTopics == s2.writeTopics
  {
    StreamsAclsRecoverTopics(s1);
    StreamsAclsRecoverTopics(s2);
    var g := StreamsAcls(s1).0.resources;
    assert g[|g| - 1] == KStreamGrant(s1.project, s1.principal, ResourceGroup, OperationRead);
    assert g[|g| - 1] == KStreamGrant(s2.project, s2.principal, ResourceGroup, OperationRead);
  }

  /** Two consumer intents with the same grants agree on project, principal and group. */
  lemma ConsumerAclsInjective(c1: ConsumerAcl, c2: ConsumerAcl)
    requires ConsumerAcls(c1) == ConsumerAcls(c2)
    ensures c1.project == c2.project && c1.principal == c2.principal && c1.group == c2.group
  {
  }

  /** Neither builder looks at the id or the metadata of its intent. */
  lemma BuildersIgnoreIdAndMetadata(c: ConsumerAcl, s: KafkaStreamsAcl, id: string, metadata: map<string, string>)
    ensures ConsumerAcls(c.(id := id, metadata := metadata)) == ConsumerAcls(c)
    ensures StreamsAcls(s.(id := id, metadata := metadata)) == StreamsAcls(s)
  {
  }
}
