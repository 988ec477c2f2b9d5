/**
 * The pure part of the Kafka client: the three workload-level ACL intents and
 * their constructors, the resource-type tests, the topic-exists error test, the
 * two grant helpers shared by the builders, and the delete filter of `deleteAcl`.
 */
module KafkaClient {
  import opened Wrappers
  import opened Sarama

  /** Read access to every topic under a project prefix, for one consumer group. */
  datatype ConsumerAcl = ConsumerAcl(
    id: string,
    project: string,
    principal: string,
    group: string,
    metadata: map<string, string>)

  /** A Kafka Streams application: its own project prefix plus extra topics. */
  datatype KafkaStreamsAcl = KafkaStreamsAcl(
    id: string,
    project: string,
    principal: string,
    readTopics: seq<string>,
    writeTopics: seq<string>,
    metadata: map<string, string>)

  /** A Kafka Connect cluster: its group, its topics and its three internal topics. */
  datatype KafkaConnectAcl = KafkaConnectAcl(
    id: string,
    principal: string,
    group: string,
    readTopics: seq<string>,
    writeTopics: seq<string>,
    statusTopic: string,
    configsTopic: string,
    offsetTopic: string,
    enableTopicCreate: bool,
    metadata: map<string, string>)

  /** The separator the constructors put between the parts of an id. */
  const IdSeparator: char := '#'

  /** Host wildcard that every grant of this provider uses. */
  const AnyHost: string := "*"

  /** Splits an id at every separator, left to right. */
  function IdFields(s: string): (r: seq<string>)
    ensures |r| >= 1
  {
    if s == [] then [""]
    else
      var rest := IdFields(s[1..]);
      if s[0] == IdSeparator then [""] + rest
      else [[s[0]] + rest[0]] + rest[1..]
  }

  lemma {:induction false} IdFieldsOfPlain(a: string)
    requires IdSeparator !in a
    ensures IdFields(a) == [a]
  {
    if a != [] {
      IdFieldsOfPlain(a[1..]);
      assert [a[0]] + a[1..] == a;
    }
  }

  lemma {:induction false} IdFieldsJoin(a: string, b: string)
    requires IdSeparator !in a
    ensures IdFields(a + [IdSeparator] + b) == [a] + IdFields(b)
  {
    var s := a + [IdSeparator] + b;
    if a == [] {
      assert s[0] == IdSeparator && s[1..] == b;
    } else {
      assert s[0] == a[0] && s[1..] == a[1..] + [IdSeparator] + b;
      IdFieldsJoin(a[1..], b);
      assert [a[0]] + a[1..] == a;
    }
  }

  function NewConsumerAcl(project: string, principal: string, group: string,
                          metadata: map<string, string>): (c: ConsumerAcl)
    ensures c.id == project + [IdSeparator] + principal + [IdSeparator] + group
    ensures c.project == project && c.principal == principal && c.group == group
    ensures c.metadata == metadata
  {
    ConsumerAcl(project + [IdSeparator] + principal + [IdSeparator] + group,
                project, principal, group, metadata)
  }

  /** The consumer id is project#principal#group: its fields give the three parts back. */
  lemma ConsumerIdFields(project: string, principal: string, group: string,
                         metadata: map<string, string>)
    requires IdSeparator !in project && IdSeparator !in principal && IdSeparator !in group
    ensures IdFields(NewConsumerAcl(project, principal, group, metadata).id) == [project, principal, group]
  {
    IdFieldsOfPlain(group);
    IdFieldsJoin(principal, group);
    assert project + [IdSeparator] + principal + [IdSeparator] + group
        == project + [IdSeparator] + (principal + [IdSeparator] + group);
    IdFieldsJoin(project, principal + [IdSeparator] + group);
  }

  /**
   * When a part contains the separator, the id no longer tells the parts apart:
   * two different consumer intents can share one id.
   */
  lemma ConsumerIdCollision()
    ensures NewConsumerAcl("a#b", "c", "d", map[]) != NewConsumerAcl("a", "b#c", "d", map[])
    ensures NewConsumerAcl("a#b", "c", "d", map[]).id == NewConsumerAcl("a", "b#c", "d", map[]).id
  {
    assert "a#b" + [IdSeparator] + "c" + [IdSeparator] + "d" == "a#b#c#d";
    assert "a" + [IdSeparator] + "b#c" + [IdSeparator] + "d" == "a#b#c#d";
  }

  function NewKafkaStreamsAcl(project: string, principal: string, readTopics: seq<string>,
                              writeTopics: seq<string>, metadata: map<string, string>): (s: KafkaStreamsAcl)
    ensures s.id == project + [IdSeparator] + principal
    ensures s.project == project && s.principal == principal
    ensures s.readTopics == readTopics && s.writeTopics == writeTopics && s.metadata == metadata
  {
    KafkaStreamsAcl(project + [IdSeparator] + principal,
                    project, principal, readTopics, writeTopics, metadata)
  }

  /** The streams id is project#principal. */
  lemma StreamsIdFields(project: string, principal: string, readTopics: seq<string>,
                        writeTopics: seq<string>, metadata: map<string, string>)
    requires IdSeparator !in project && IdSeparator !in principal
    ensures IdFields(NewKafkaStreamsAcl(project, principal, readTopics, writeTopics, metadata).id)
         == [project, principal]
  {
    IdFieldsOfPlain(principal);
    IdFieldsJoin(project, principal);
  }

  function NewKafkaConnectAcl(principal: string, group: string, readTopics: seq<string>,
                              writeTopics: seq<string>, statusTopic: string, configsTopic: string,
                              offsetTopic: string, enableTopicCreate: bool,
                              metadata: map<string, string>): (k: KafkaConnectAcl)
    ensures k.id == group + [IdSeparator] + principal
    ensures k.principal == principal && k.group == group
    ensures k.readTopics == readTopics && k.writeTopics == writeTopics
    ensures k.statusTopic == statusTopic && k.configsTopic == configsTopic && k.offsetTopic == offsetTopic
    ensures k.enableTopicCreate == enableTopicCreate && k.metadata == metadata
  {
    KafkaConnectAcl(group + [IdSeparator] + principal, principal, group, readTopics, writeTopics,
                    statusTopic, configsTopic, offsetTopic, enableTopicCreate, metadata)
  }

  /** The connect id puts the group first: group#principal. */
  lemma ConnectIdFields(principal: string, group: string, readTopics: seq<string>,
                        writeTopics: seq<string>, statusTopic: string, configsTopic: string,
                        offsetTopic: string, enableTopicCreate: bool, metadata: map<string, string>)
    requires IdSeparator !in principal && IdSeparator !in group
    ensures IdFields(NewKafkaConnectAcl(principal, group, readTopics, writeTopics, statusTopic,
                                        configsTopic, offsetTopic, enableTopicCreate, metadata).id)
         == [group, principal]
  {
    IdFieldsOfPlain(principal);
    IdFieldsJoin(group, principal);
  }

  predicate IsAGroupAcl(entity: ResourceAcls) {
    entity.resource.resourceType == ResourceGroup
  }

  predicate IsATopicAcl(entity: ResourceAcls) {
    entity.resource.resourceType == ResourceTopic
  }

  predicate IsAClusterAcl(entity: ResourceAcls) {
    entity.resource.resourceType == ResourceCluster
  }

  /** At most one of the three tests holds, and one holds exactly for the three kinds used here. */
  lemma AclKindsExclusive(entity: ResourceAcls)
    ensures !(IsAGroupAcl(entity) && IsATopicAcl(entity))
    ensures !(IsAGroupAcl(entity) && IsAClusterAcl(entity))
    ensures !(IsATopicAcl(entity) && IsAClusterAcl(entity))
    ensures IsAGroupAcl(entity) || IsATopicAcl(entity) || IsAClusterAcl(entity)
        <==> entity.resource.resourceType in {ResourceGroup, ResourceTopic, ResourceCluster}
  {
  }

  /** The text the broker client gives when a topic is created twice. */
  const TopicExistsMessage: string := "kafka server: Topic with this name already exists"

  /** Go's strings.HasPrefix. */
  predicate HasPrefix(s: string, prefix: string) {
    |s| >= |prefix| && s[..|prefix|] == prefix
  }

  function IsTopicAlreadyExistError(message: string): (r: bool)
    ensures r <==> exists rest :: message == TopicExistsMessage + rest
  {
    var r := HasPrefix(message, TopicExistsMessage);
    if r then
      assert message == TopicExistsMessage + message[|TopicExistsMessage|..];
      r
    else
      assert forall rest :: (TopicExistsMessage + rest)[..|TopicExistsMessage|] == TopicExistsMessage;
      r
  }

  /** The project-wide grant of a streams application: a Prefixed pattern on `project`. */
  function CreateKStreamAcl(project: string, principal: string, resourceType: AclResourceType,
                            op: AclOperation): (r: (Resource, Acl))
    ensures r.0 == Resource(project, resourceType, PatternPrefixed)
    ensures r.1 == Acl(principal, AnyHost, op, PermissionAllow)
  {
    (Resource(project, resourceType, PatternPrefixed), Acl(principal, AnyHost, op, PermissionAllow))
  }

  /** One Literal topic pattern and one Allow ACL per topic, at the same index. */
  method CreateTopicAcls(topics: seq<string>, principal: string, op: AclOperation)
    returns (resources: seq<Resource>, acls: seq<Acl>)
    ensures |resources| == |topics| && |acls| == |topics|
    ensures forall i :: 0 <= i < |topics| ==>
      resources[i] == Resource(topics[i], ResourceTopic, PatternLiteral)
    ensures forall i :: 0 <= i < |topics| ==>
      acls[i] == Acl(principal, AnyHost, op, PermissionAllow)
  {
    var resourceArr := new Resource[|topics|];
    var aclArr := new Acl[|topics|];
    for i := 0 to |topics|
      invariant forall k :: 0 <= k < i ==>
        resourceArr[k] == Resource(topics[k], ResourceTopic, PatternLiteral)
      invariant forall k :: 0 <= k < i ==>
        aclArr[k] == Acl(principal, AnyHost, op, PermissionAllow)
    {
      resourceArr[i] := Resource(topics[i], ResourceTopic, PatternLiteral);
      aclArr[i] := Acl(principal, AnyHost, op, PermissionAllow);
    }
    resources, acls := resourceArr[..], aclArr[..];
  }

  /** The filter `deleteAcl` sends: six fields of the grant, any host. */
  function DeleteAclFilter(resource: Resource, acl: Acl): (f: AclFilter)
    ensures f.host.None?
  {
    AclFilter(Some(resource.resourceName), resource.resourceType, Some(acl.principal), None,
              acl.operation, acl.permissionType, resource.resourcePatternType)
  }

  /**
   * Whether a filter selects a stored grant: a `None` text field and an `Any`
   * enumeration value match everything, every other field must be equal.
   */
  predicate FilterSelects(f: AclFilter, resource: Resource, acl: Acl) {
    && (f.resourceName.None? || f.resourceName.value == resource.resourceName)
    && (f.resourceType == ResourceAny || f.resourceType == resource.resourceType)
    && (f.principal.None? || f.principal.value == acl.principal)
    && (f.host.None? || f.host.value == acl.host)
    && (f.operation == OperationAny || f.operation == acl.operation)
    && (f.permissionType == PermissionAny || f.permissionType == acl.permissionType)
    && (f.resourcePatternTypeFilter == PatternAny
        || f.resourcePatternTypeFilter == resource.resourcePatternType)
  }

  /** Predicate for a grant with concrete (non-wildcard) enumeration values. */
  predicate Concrete(resource: Resource, acl: Acl) {
    resource.resourceType != ResourceAny && resource.resourcePatternType != PatternAny
    && acl.operation != OperationAny && acl.permissionType != PermissionAny
  }

  /**
   * The filter built for a concrete grant selects exactly the grants that agree
   * with it on name, resource type, pattern type, principal, operation and
   * permission, whatever their host.
   */
  lemma DeleteAclFilterSelectsCopies(resource: Resource, acl: Acl, other: Resource, otherAcl: Acl)
    requires Concrete(resource, acl)
    ensures FilterSelects(DeleteAclFilter(resource, acl), resource, acl)
    ensures FilterSelects(DeleteAclFilter(resource, acl), other, otherAcl)
        <==> other == resource && otherAcl.principal == acl.principal
             && otherAcl.operation == acl.operation && otherAcl.permissionType == acl.permissionType
  {
  }
}
