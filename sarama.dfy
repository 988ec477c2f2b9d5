/**
 * The records and enumerations of the Kafka admin library that the core
 * passes around: resource patterns, ACL entries, the entities the broker
 * reports, delete filters and topic configuration entries.
 */
module Sarama {
  import opened Wrappers

  datatype AclResourceType =
    | ResourceUnknown | ResourceAny | ResourceTopic | ResourceGroup
    | ResourceCluster | ResourceTransactionalID | ResourceDelegationToken

  datatype AclPatternType =
    | PatternUnknown | PatternAny | PatternMatch | PatternLiteral | PatternPrefixed

  datatype AclOperation =
    | OperationUnknown | OperationAny | OperationAll | OperationRead | OperationWrite
    | OperationCreate | OperationDelete | OperationAlter | OperationDescribe
    | OperationClusterAction | OperationDescribeConfigs | OperationAlterConfigs
    | OperationIdempotentWrite

  datatype AclPermissionType =
    | PermissionUnknown | PermissionAny | PermissionDeny | PermissionAllow

  /** A resource pattern: what a grant applies to. */
  datatype Resource = Resource(
    resourceName: string,
    resourceType: AclResourceType,
    resourcePatternType: AclPatternType)

  /** Who may do what from where, on some resource. */
  datatype Acl = Acl(
    principal: string,
    host: string,
    operation: AclOperation,
    permissionType: AclPermissionType)

  /** One entity as the broker lists it: a resource pattern with every ACL on it. */
  datatype ResourceAcls = ResourceAcls(resource: Resource, acls: seq<Acl>)

  /** A delete filter; a `None` string field matches any value. */
  datatype AclFilter = AclFilter(
    resourceName: Option<string>,
    resourceType: AclResourceType,
    principal: Option<string>,
    host: Option<string>,
    operation: AclOperation,
    permissionType: AclPermissionType,
    resourcePatternTypeFilter: AclPatternType)

  /** Where the broker says a configuration value comes from. */
  datatype ConfigSource =
    | SourceUnknown | SourceTopic | SourceDynamicBroker | SourceDynamicDefaultBroker
    | SourceStaticBroker | SourceDefault

  datatype ConfigEntry = ConfigEntry(
    name: string,
    value: string,
    default: bool,
    source: ConfigSource)
}
