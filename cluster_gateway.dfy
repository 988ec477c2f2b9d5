/**
 * The one admin-client call the create path makes, `ApplyAcls`, as seen by its
 * caller. Connecting to the brokers is replaced by a fixed outcome; each
 * CreateACL request is recorded, and its own result is dropped, as in the source.
 */
module ClusterGateway {
  import opened Wrappers
  import opened KafkaAclsBuilder

  class KafkaCluster {
    /** What connecting to the brokers yields: no error, or the connection error. */
    var connectError: Option<Error>
    /** Every CreateACL request sent so far, in order. */
    var issued: seq<AclResourceInfo>
    /** How many times ApplyAcls has been called. */
    ghost var applyCalls: nat

    constructor (connectError: Option<Error>)
      ensures this.connectError == connectError && issued == [] && applyCalls == 0
    {
      this.connectError := connectError;
      issued := [];
      applyCalls := 0;
    }

    method ApplyAcls(resources: AclResources) returns (err: Option<Error>)
      modifies this`issued, this`applyCalls
      ensures err == connectError
      ensures applyCalls == old(applyCalls) + 1
      ensures issued == if connectError.None? then old(issued) + resources.resources else old(issued)
    {
      applyCalls := applyCalls + 1;
      if connectError.Some? {
        return connectError;
      }
      for i := 0 to |resources.resources|
        invariant issued == old(issued) + resources.resources[..i]
        invariant applyCalls == old(applyCalls) + 1
      {
        issued := issued + [resources.resources[i]];
      }
      assert resources.resources[..|resources.resources|] == resources.resources;
      return None;
    }
  }
}
