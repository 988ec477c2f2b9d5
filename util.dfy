/**
 * The two control-flow helpers shared by the ACL resources: the create path
 * (build, then apply, returning early on the first error) and the read-path
 * selection loop that decides which broker entities reach the parser.
 */
module Util {
  import opened Wrappers
  import opened Sarama
  import opened KafkaAclsBuilder
  import opened ClusterGateway

  method CreateAcl<D, I>(c: KafkaCluster, d: D, convert: D -> I,
                         builder: I -> (AclResources, Option<Error>))
    returns (acl: Option<I>, err: Option<Error>)
    modifies c`issued, c`applyCalls
    ensures var (intent, resources, buildErr) := BuildAcls(d, convert, builder);
      && (buildErr.Some? ==>
            acl.None? && err == buildErr && c.applyCalls == old(c.applyCalls) && c.issued == old(c.issued))
      && (buildErr.None? && c.connectError.Some? ==>
            acl.None? && err == c.connectError && c.applyCalls == old(c.applyCalls) + 1
            && c.issued == old(c.issued))
      && (buildErr.None? && c.connectError.None? ==>
            acl == Some(intent) && err.None? && c.applyCalls == old(c.applyCalls) + 1
            && c.issued == old(c.issued) + resources.resources)
  {
    var (aclInterface, acls, buildErr) := BuildAcls(d, convert, builder);
    if buildErr.Some? {
      return None, buildErr;
    }
    var applyErr := c.ApplyAcls(acls);
    if applyErr.Some? {
      return None, applyErr;
    }
    return Some(aclInterface), None;
  }

  /**
   * The entities the selection loop hands to the parser: skipped entities are
   * passed over, and the first entity that is kept but has no ACLs ends the walk.
   */
  function Selected<I>(found: seq<ResourceAcls>, intent: I, shouldContinue: (ResourceAcls, I) -> bool)
    : (r: seq<ResourceAcls>)
    ensures forall e :: e in r ==> !shouldContinue(e, intent) && |e.acls| >= 1
    ensures |r| <= |found|
  {
    if found == [] then []
    else if shouldContinue(found[0], intent) then Selected(found[1..], intent, shouldContinue)
    else if |found[0].acls| < 1 then []
    else [found[0]] + Selected(found[1..], intent, shouldContinue)
  }

  /** The state after the parser has run on `entities`, one after the other. */
  function ParseAll<S, I>(d: S, intent: I, parser: (S, I, ResourceAcls) -> S, entities: seq<ResourceAcls>): S {
    if entities == [] then d
    else parser(ParseAll(d, intent, parser, entities[..|entities| - 1]), intent, entities[|entities| - 1])
  }

  /**
   * Walks the entities the broker reported, in order. `parsed` is the list of
   * entities handed to the parser, and `dOut` the state the parser leaves.
   */
  method SelectAclsFor<S, I>(d: S, foundAcls: seq<ResourceAcls>, aclInterface: I,
                             shouldContinue: (ResourceAcls, I) -> bool,
                             parser: (S, I, ResourceAcls) -> S)
    returns (dOut: S, parsed: seq<ResourceAcls>)
    ensures parsed == Selected(foundAcls, aclInterface, shouldContinue)
    ensures dOut == ParseAll(d, aclInterface, parser, parsed)
  {
    dOut, parsed := d, [];
    var i := 0;
    while i < |foundAcls|
      invariant 0 <= i <= |foundAcls|
      invariant parsed + Selected(foundAcls[i..], aclInterface, shouldContinue)
             == Selected(foundAcls, aclInterface, shouldContinue)
      invariant dOut == ParseAll(d, aclInterface, parser, parsed)
    {
      var aclEntity := foundAcls[i];
      ghost var rest := Selected(foundAcls[i + 1..], aclInterface, shouldContinue);
      assert foundAcls[i..][1..] == foundAcls[i + 1..];
      if shouldContinue(aclEntity, aclInterface) {
        assert Selected(foundAcls[i..], aclInterface, shouldContinue) == rest;
        i := i + 1;
        continue;
      }
      if |aclEntity.acls| < 1 {
        assert Selected(foundAcls[i..], aclInterface, shouldContinue) == [];
        assert parsed == Selected(foundAcls, aclInterface, shouldContinue);
        break;
      }
      assert Selected(foundAcls[i..], aclInterface, shouldContinue) == [aclEntity] + rest;
      dOut := parser(dOut, aclInterface, aclEntity);
      assert (parsed + [aclEntity])[..|parsed|] == parsed;
      assert parsed + [aclEntity] + rest == parsed + ([aclEntity] + rest);
      parsed := parsed + [aclEntity];
      i := i + 1;
    }
    assert i == |foundAcls| ==> foundAcls[i..] == [];
  }

  /** The entities of `entities` that are not skipped, in order. */
  function Unskipped<I>(entities: seq<ResourceAcls>, intent: I, shouldContinue: (ResourceAcls, I) -> bool)
    : (r: seq<ResourceAcls>)
    ensures |r| <= |entities|
    ensures forall e :: e in r ==> e in entities && !shouldContinue(e, intent)
  {
    if entities == [] then []
    else
      (if shouldContinue(entities[0], intent) then [] else [entities[0]])
      + Unskipped(entities[1..], intent, shouldContinue)
  }

  /** `sub` is `s` with some elements removed and the rest left in order. */
  predicate IsSubsequence(sub: seq<ResourceAcls>, s: seq<ResourceAcls>)
    decreases |s|
  {
    if sub == [] then true
    else if s == [] then false
    else (sub[0] == s[0] && IsSubsequence(sub[1..], s[1..])) || IsSubsequence(sub, s[1..])
  }

  /** The skip filter keeps entities in input order and drops the others. */
  lemma {:induction false} UnskippedIsSubsequence<I>(entities: seq<ResourceAcls>, intent: I,
                                                    shouldContinue: (ResourceAcls, I) -> bool)
    ensures IsSubsequence(Unskipped(entities, intent, shouldContinue), entities)
  {
    if entities != [] {
      var rest := Unskipped(entities[1..], intent, shouldContinue);
      UnskippedIsSubsequence(entities[1..], intent, shouldContinue);
      if shouldContinue(entities[0], intent) {
        assert Unskipped(entities, intent, shouldContinue) == rest;
      } else {
        var r := [entities[0]] + rest;
        assert Unskipped(entities, intent, shouldContinue) == r;
        assert r[0] == entities[0] && r[1..] == rest;
      }
    }
  }

  /** The skip filter keeps each entity at most as often as the input holds it. */
  lemma {:induction false} UnskippedSubMultiset<I>(entities: seq<ResourceAcls>, intent: I,
                                                  shouldContinue: (ResourceAcls, I) -> bool)
    ensures multiset(Unskipped(entities, intent, shouldContinue)) <= multiset(entities)
  {
    if entities != [] {
      UnskippedSubMultiset(entities[1..], intent, shouldContinue);
      assert entities == [entities[0]] + entities[1..];
    }
  }

  /** The position of the first kept entity without ACLs, or the length when there is none. */
  function StopIndex<I>(found: seq<ResourceAcls>, intent: I, shouldContinue: (ResourceAcls, I) -> bool)
    : (k: nat)
    ensures k <= |found|
    ensures forall j :: 0 <= j < k ==> shouldContinue(found[j], intent) || |found[j].acls| >= 1
    ensures k < |found| ==> !shouldContinue(found[k], intent) && |found[k].acls| == 0
  {
    if found == [] then 0
    else if !shouldContinue(found[0], intent) && |found[0].acls| == 0 then 0
    else 1 + StopIndex(found[1..], intent, shouldContinue)
  }

  /**
   * What the loop parses is the unskipped part of the entities before the
   * first kept entity without ACLs: in input order, each at most once.
   */
  lemma {:induction false} SelectedIsUnskippedPrefix<I>(found: seq<ResourceAcls>, intent: I,
                                                      shouldContinue: (ResourceAcls, I) -> bool)
    ensures Selected(found, intent, shouldContinue)
         == Unskipped(found[..StopIndex(found, intent, shouldContinue)], intent, shouldContinue)
  {
    if found == [] {
      return;
    }
    var k := StopIndex(found, intent, shouldContinue);
    var skip := shouldContinue(found[0], intent);
    if !skip && |found[0].acls| == 0 {
      assert k == 0 && found[..k] == [];
      return;
    }
    var rest := found[1..];
    var k' := StopIndex(rest, intent, shouldContinue);
    assert k == 1 + k';
    SelectedIsUnskippedPrefix(rest, intent, shouldContinue);
    var prefix := found[..k];
    assert prefix != [] && prefix[0] == found[0] && prefix[1..] == rest[..k'];
    var head := if skip then [] else [found[0]];
    assert Unskipped(prefix, intent, shouldContinue) == head + Unskipped(rest[..k'], intent, shouldContinue);
    assert Selected(found, intent, shouldContinue) == head + Selected(rest, intent, shouldContinue);
  }

  /** A kept entity with no ACLs ends the walk: nothing after it is parsed, even entities that have ACLs. */
  lemma {:induction false} FirstEmptyStops<I>(found: seq<ResourceAcls>, intent: I,
                                             shouldContinue: (ResourceAcls, I) -> bool, k: nat)
    requires k < |found|
    requires !shouldContinue(found[k], intent) && |found[k].acls| == 0
    ensures Selected(found, intent, shouldContinue) == Selected(found[..k], intent, shouldContinue)
  {
    if k > 0 {
      assert found[..k][0] == found[0] && found[..k][1..] == found[1..][..k - 1];
      FirstEmptyStops(found[1..], intent, shouldContinue, k - 1);
    }
  }

  /**
   * A skipped entity does not affect the walk, whatever its ACLs: in particular
   * a skipped entity without ACLs does not end it, because the skip test comes first.
   */
  lemma {:induction false} SkippedEntityIgnored<I>(before: seq<ResourceAcls>, entity: ResourceAcls,
                                                  after: seq<ResourceAcls>, intent: I,
                                                  shouldContinue: (ResourceAcls, I) -> bool)
    requires shouldContinue(entity, intent)
    ensures Selected(before + [entity] + after, intent, shouldContinue)
         == Selected(before + after, intent, shouldContinue)
  {
    if before == [] {
      assert (before + [entity] + after)[1..] == after;
      assert before + after == after;
    } else {
      assert (before + [entity] + after)[0] == before[0];
      assert (before + [entity] + after)[1..] == before[1..] + [entity] + after;
      assert (before + after)[0] == before[0] && (before + after)[1..] == before[1..] + after;
      SkippedEntityIgnored(before[1..], entity, after, intent, shouldContinue);
    }
  }
}
