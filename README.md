# ACL expansion in the JulieOps Terraform provider, modelled in Dafny

The provider manages Kafka ACLs per workload. A workload is described by an
intent:

- a consumer: a project prefix, a principal and a consumer group;
- a Kafka Streams application: a project prefix, a principal, and extra read and write topics;
- a Kafka Connect cluster.

The core expands an intent into the flat list of grants the broker stores. Each
grant is a resource pattern (name, resource type, pattern type) plus an ACL
(principal, host, operation, permission). The model also covers:

- the three intent constructors and the ids they derive;
- the two grant helpers the builders share;
- the filter used to delete one grant;
- the create path: convert, build, apply, with an early return on the first error;
- the read-path loop that decides which broker entities reach the parser;
- the filter that keeps only the non-default entries of a topic's configuration.

Modules, one per source file or component:

- `Wrappers`: `Option`, `Result`, and `Error` (an error's text).
- `Sarama`: the admin library's enumerations and records (`Resource`, `Acl`,
  `ResourceAcls`, `AclFilter`, `ConfigEntry`).
- `KafkaClient` (julie/client/kafka_client.go): the intents, constructors,
  resource-type tests, topic-exists test, `createKStreamAcl`, `createTopicAcls`
  and the `deleteAcl` filter.
- `KafkaAclsBuilder` (julie/client/kafka_acls_builder.go): the two builders.
  Each fills a preallocated array by index, as the source does. Each is proved
  equal to a reference function. Lemmas show that the flat list determines the
  intent's project, principal and group (consumer) and its project, principal,
  read topics and write topics (streams), but not its id or metadata.
- `ClusterGateway`: the `ApplyAcls` call of julie/client/kafka_client.go as its
  caller sees it. The connection outcome is a field. The CreateACL requests are
  recorded in order.
- `Util` (julie/util.go): `funcCreateAcl` as `CreateAcl` and `funcSelectAclsFor`
  as `SelectAclsFor`. The converter, builder, skip predicate and parser are
  parameters.
- `TopicConfig` (julie/client/utils.go): `isDefault` and `retrieveTopicConfiguration`.

Go's type assertions on the untyped intent become types: each builder takes its
own intent datatype, so the panic on a wrong intent cannot occur.

The Go builders have `KafkaAclsBuilder` as receiver but never read its `Client`
field. Here they take only the intent. Their `ensures` equate the result with a
function of the intent, so equal intents give equal grant lists.

## Model

| member | source | states |
|---|---|---|
| `KafkaAclsBuilder.BuildAcls` | julie/client/kafka_acls_builder.go:25-29 | the converted intent is returned unchanged, together with exactly the resources and error the builder gives for it |
| `KafkaAclsBuilder.ConsumerAclsBuilder` | julie/client/kafka_acls_builder.go:31-69 | exactly 3 grants and no error. Entries 0 and 1 are on the Prefixed topic pattern `project`, with Describe then Read. Entry 2 is Read on the Literal group pattern `group`. Every grant allows the principal from host `*`. The array filled by index equals the reference list |
| `KafkaAclsBuilder.KafkaStreamsAclsBuilder` | julie/client/kafka_acls_builder.go:71-93 | no error and exactly `len(readTopics)+len(writeTopics)+2` grants; the array filled through the two `createTopicAcls` loops and two `createKStreamAcl` calls equals the reference list |
| `KafkaAclsBuilder.StreamsAclsFromParts` | julie/client/kafka_acls_builder.go:75-91 | a list laid out as the streams builder fills its array (read grants, write grants, project topic grant, project group grant) is the reference list |
| `KafkaAclsBuilder.StreamsAclsLayout` | julie/client/kafka_acls_builder.go:73-91 | streams layout: one Literal Read topic grant per read topic, in order. Then one Literal Write grant per write topic, in order. Then All on the Prefixed topic pattern `project`. Then Read on the Prefixed group pattern `project`. Every grant allows the principal from host `*` |
| `KafkaAclsBuilder.TopicGrants` | julie/client/kafka_client.go:488-508 | one grant per topic, same length and index: a Literal topic pattern on `topics[k]`, Allow for the principal from `*` with the given operation |
| `KafkaAclsBuilder.StreamsAclsRecoverTopics` | julie/client/kafka_acls_builder.go:75-91 | from the streams grants, the Literal Read topic names give back `readTopics` and the Literal Write names give back `writeTopics`, in order; the Prefixed project grants never interfere |
| `KafkaAclsBuilder.StreamsAclsInjective` | julie/client/kafka_acls_builder.go:71-93 | two streams intents with equal grants have equal project, principal, read topics and write topics |
| `KafkaAclsBuilder.ConsumerAclsInjective` | julie/client/kafka_acls_builder.go:31-69 | two consumer intents with equal grants have equal project, principal and group |
| `KafkaAclsBuilder.BuildersIgnoreIdAndMetadata` | julie/client/kafka_acls_builder.go:31-93 | neither builder depends on the intent's id or metadata |
| `KafkaClient.NewConsumerAcl` | julie/client/kafka_client.go:41-49 | project, principal, group and metadata are copied unchanged; the id is project#principal#group |
| `KafkaClient.ConsumerIdFields` | julie/client/kafka_client.go:43 | when no part contains `#`, splitting the id at `#` gives back project, principal and group, in that order |
| `KafkaClient.ConsumerIdCollision` | julie/client/kafka_client.go:43 | when a part contains `#`, two different consumer intents (`a#b`,`c`,`d` and `a`,`b#c`,`d`) get the same id `a#b#c#d` |
| `KafkaClient.NewKafkaStreamsAcl` | julie/client/kafka_client.go:60-69 | project, principal, both topic lists and metadata are copied unchanged; the id is project#principal |
| `KafkaClient.StreamsIdFields` | julie/client/kafka_client.go:62 | when no part contains `#`, splitting the id gives back project then principal |
| `KafkaClient.NewKafkaConnectAcl` | julie/client/kafka_client.go:84-100 | all nine arguments are copied unchanged into their fields; the id is group#principal |
| `KafkaClient.ConnectIdFields` | julie/client/kafka_client.go:89 | when no part contains `#`, splitting the id gives back group then principal (group first) |
| `KafkaClient.AclKindsExclusive` | julie/client/kafka_client.go:279-289 | at most one of `IsAGroupAcl`, `IsATopicAcl`, `IsAClusterAcl` holds. One holds exactly when the resource type is Group, Topic or Cluster |
| `KafkaClient.IsTopicAlreadyExistError` | julie/client/kafka_client.go:253-255 | true exactly when the error text is `kafka server: Topic with this name already exists` followed by anything |
| `KafkaClient.CreateKStreamAcl` | julie/client/kafka_client.go:472-486 | a Prefixed pattern on `project` with the given resource type, and an Allow ACL for the principal from `*` with the given operation |
| `KafkaClient.CreateTopicAcls` | julie/client/kafka_client.go:488-508 | two lists, each as long as `topics`; at every index a Literal topic pattern on that topic and an Allow ACL for the principal from `*` with the given operation |
| `KafkaClient.DeleteAclFilter` | julie/client/kafka_client.go:536-544 | the filter leaves the host open |
| `KafkaClient.DeleteAclFilterSelectsCopies` | julie/client/kafka_client.go:536-546 | the filter built from a concrete grant selects that grant. It selects exactly the grants that match it on name, resource type, pattern type, principal, operation and permission, whatever their host |
| `ClusterGateway.KafkaCluster.ApplyAcls` | julie/client/kafka_client.go:291-303 | a connection error is returned and nothing is sent. Otherwise one CreateACL request goes out per grant, in order, each request's own error is dropped, and no error is returned |
| `Util.CreateAcl` | julie/util.go:10-26 | a build error is returned with no intent, and ApplyAcls is never called. An apply error is returned with no intent. Otherwise the converted intent is returned, with no error, after exactly the built grants were sent |
| `Util.Selected` | julie/util.go:31-43 | every entity handed to the parser is not skipped and has at least one ACL; no more entities are parsed than were reported |
| `Util.SelectAclsFor` | julie/util.go:31-43 | the loop hands the parser exactly the selected entities, one call each, in order, and returns the state the parser leaves |
| `Util.Unskipped` | julie/util.go:34-36 | the skip filter keeps no more entities than it is given; each kept entity comes from the input and is not skipped |
| `Util.UnskippedIsSubsequence` | julie/util.go:33-36 | the entities kept by the skip test appear in input order: the result is a subsequence of the input |
| `Util.UnskippedSubMultiset` | julie/util.go:33-36 | no entity is kept more often than the input holds it |
| `Util.StopIndex` | julie/util.go:37-39 | the position of the first kept entity without ACLs: every earlier entity is skipped or has ACLs |
| `Util.SelectedIsUnskippedPrefix` | julie/util.go:33-42 | what is parsed is the unskipped part of the entities before the first kept entity without ACLs: input order, each entity at most once |
| `Util.FirstEmptyStops` | julie/util.go:37-39 | the first kept entity without ACLs ends the walk; no later entity is parsed, even one with ACLs |
| `Util.SkippedEntityIgnored` | julie/util.go:34-39 | a skipped entity has no effect on the walk, whatever its ACLs: a skipped entity without ACLs does not end the walk, because the skip test runs first |
| `TopicConfig.IsDefaultCases` | julie/client/utils.go:28-30 | an entry flagged default is a default whatever its source. An unflagged entry is a default exactly when its source is the defaults or the static broker configuration |
| `TopicConfig.NonDefaultConfigKeys` | julie/client/utils.go:19-24 | a name is in the returned map exactly when some entry with that name is not a default |
| `TopicConfig.NonDefaultConfigLastWins` | julie/client/utils.go:19-24 | a kept name maps to the value of its last non-default entry |
| `TopicConfig.RetrieveTopicConfiguration` | julie/client/utils.go:9-26 | a DescribeConfig failure gives that error and no map. Otherwise the loop returns the map of non-default entries, with later entries overwriting earlier ones |

## Left out

- The Kafka Connect builder `KafkaConnectAclsBuilder` is not part of this model. It is called at julie/client/kafka_client.go:428 and julie/resource_kafka_connect_acl.go:96, but its code is not among the files modelled.
- The three `*AclsParser` functions and the three `*AclShouldContinue` predicates are not part of this model either. `SelectAclsFor` takes the skip predicate and the parser as parameters.
- The round-trip between build and parse cannot be stated without the parsers. The recovery lemmas (`StreamsAclsRecoverTopics`, `StreamsAclsInjective`, `ConsumerAclsInjective`) instead show that the flat grants determine the project, principal and group of a consumer intent and the project, principal, read topics and write topics of a streams intent; the id and metadata are not carried by any grant (`BuildersIgnoreIdAndMetadata`).
- Network calls of the admin client are not modelled: `newConfig`, `newAdminClient`, `ListTopics`, `CreateTopic`, `UpdateTopic`, `DeleteTopic`, `Create*Acl`, `Delete*Acl`, `ListAcls` and the `DeleteACL` call inside `deleteAcl`. Only the filter `deleteAcl` builds is modelled.
- `DeleteConsumerAcl` (julie/client/kafka_client.go:357-363) passes the loop index, not the listed Describe/Read operations, as the operation code. It is left out with the rest of the network code.
- `ClusterGateway.KafkaCluster.ApplyAcls`: connecting is a fixed outcome held in a field. `issued` records the requests sent, not what the broker kept, since each CreateACL result is dropped.
- Topic creation treats "already exists" as success. `IsTopicAlreadyExistError` is modelled on the error text; the `CreateTopic` call around it is not.
- `FilterSelects` is this model's reading of how the broker applies a delete filter. It covers exact pattern-type filters and the `Any` wildcards, not the broker's `Match` pattern-type semantics.
- `SelectAclsFor`: the parser is a function from state to state, and its returned error is ignored, as in the source. The log line is left out.
- `RetrieveTopicConfiguration`: DescribeConfig is a function parameter. Config values are strings, not pointers to strings. Config entries omit the read-only, sensitive and synonym fields, which the source never reads. Log output is left out.
- Kafka Connect REST client (julie/client/kafka_connect_client.go): HTTP and JSON, no domain logic.
- The Terraform glue is left out: resource schemas, `d.Get`/`d.Set`, diagnostics, the partition-decrease ForceNew rule and provider configuration. Intents are built directly instead.
- `hash` in julie/client/utils.go: an unused wrapper over FNV-1a.
- Logging throughout.
