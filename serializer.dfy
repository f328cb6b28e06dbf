/**
 * The JSON contract resolvers the SDK installs: a composite that asks its
 * resolvers in turn, and the rule that lets properties with a non-public
 * setter be deserialized.
 */
module Serializer {

  import opened Wrappers
  import opened Exceptions

  /** A .NET type, by name. */
  type TypeName = string

  /** A serialization contract for a type, kept abstract. */
  datatype Contract = Contract(forType: TypeName, description: string)

  /** A contract resolver, seen as what it answers for each type (None for null). */
  datatype Resolver = Resolver(resolve: TypeName -> Option<Contract>)

  /** The first non-null answer of the resolvers, in order; null when there is none. */
  function FirstContract(resolvers: seq<Resolver>, t: TypeName): Option<Contract>
    decreases |resolvers|
  {
    if resolvers == [] then None
    else if resolvers[0].resolve(t).Some? then resolvers[0].resolve(t)
    else FirstContract(resolvers[1..], t)
  }

  /**
   * First match: the result is null exactly when every resolver answers null
   * (in particular for no resolvers); otherwise it is the answer of some
   * resolver all of whose predecessors answered null.
   */
  lemma {:induction false} FirstContractIsFirstMatch(resolvers: seq<Resolver>, t: TypeName)
    ensures FirstContract(resolvers, t).None? <==> forall k :: 0 <= k < |resolvers| ==> resolvers[k].resolve(t).None?
    ensures FirstContract(resolvers, t).Some? ==>
      exists k :: 0 <= k < |resolvers| && resolvers[k].resolve(t) == FirstContract(resolvers, t)
        && forall j :: 0 <= j < k ==> resolvers[j].resolve(t).None?
    decreases |resolvers|
  {
    if resolvers != [] {
      var rest := resolvers[1..];
      FirstContractIsFirstMatch(rest, t);
      if resolvers[0].resolve(t).None? {
        if FirstContract(rest, t).Some? {
          var k :| 0 <= k < |rest| && rest[k].resolve(t) == FirstContract(rest, t)
            && forall j :: 0 <= j < k ==> rest[j].resolve(t).None?;
          assert resolvers[k + 1] == rest[k];
          forall j | 0 <= j < k + 1 ensures resolvers[j].resolve(t).None? {
            if j > 0 {
              assert resolvers[j] == rest[j - 1];
            }
          }
        } else {
          forall k | 0 <= k < |resolvers| ensures resolvers[k].resolve(t).None? {
            if k > 0 {
              assert resolvers[k] == rest[k - 1];
            }
          }
        }
      }
    }
  }

  /** Appending resolvers only matters for types the earlier ones leave unresolved. */
  lemma {:induction false} FirstContractAppend(resolvers: seq<Resolver>, more: seq<Resolver>, t: TypeName)
    ensures FirstContract(resolvers + more, t) ==
      if FirstContract(resolvers, t).Some? then FirstContract(resolvers, t) else FirstContract(more, t)
    decreases |resolvers|
  {
    if resolvers == [] {
      assert resolvers + more == more;
    } else {
      assert (resolvers + more)[1..] == resolvers[1..] + more;
      FirstContractAppend(resolvers[1..], more, t);
    }
  }

  /** The composite resolver: an ordered, append-only list of resolvers. */
  class MultipleContractResolver {
    var resolvers: seq<Resolver>

    constructor ()
      ensures resolvers == []
    {
      resolvers := [];
    }

    /** The contract for a type: the first non-null answer, in insertion order. */
    function ResolveContract(t: TypeName): Option<Contract>
      reads this
    {
      FirstContract(resolvers, t)
    }

    /**
     * Appends a resolver; a null one is an ArgumentNullException and changes
     * nothing. A type resolved before keeps its contract.
     */
    method Add(resolver: Option<Resolver>) returns (outcome: Outcome<()>)
      modifies this`resolvers
      ensures resolver.None? ==> outcome == Failure(ArgumentNull("contractResolver")) && resolvers == old(resolvers)
      ensures resolver.Some? ==> outcome == Success(()) && resolvers == old(resolvers) + [resolver.value]
      ensures forall t :: old(ResolveContract(t)).Some? ==> ResolveContract(t) == old(ResolveContract(t))
    {
      if resolver.None? {
        return Failure(ArgumentNull("contractResolver"));
      }
      resolvers := resolvers + [resolver.value];
      forall t | FirstContract(old(resolvers), t).Some?
        ensures FirstContract(resolvers, t) == FirstContract(old(resolvers), t)
      {
        FirstContractAppend(old(resolvers), [resolver.value], t);
      }
      outcome := Success(());
    }
  }

  // ----- Writable properties with non-public setters ------------------------

  datatype Visibility = Public | Internal | Protected | Private

  /** A member the serializer maps: a property with its setter, if any, or a field. */
  datatype Member = Property(name: string, setter: Option<Visibility>) | Field(name: string)

  /** The serializer's description of one member; only its writability is modelled. */
  class JsonProperty {
    var writable: bool

    constructor (writable: bool)
      ensures this.writable == writable
    {
      this.writable := writable;
    }
  }

  /**
   * The writability the resolver leaves: already writable stays writable; a
   * property becomes writable exactly when it has a setter of any visibility;
   * any other member keeps what the base resolver decided.
   */
  function UpgradedWritable(member: Member, baseWritable: bool): (w: bool)
    ensures baseWritable ==> w
    ensures !baseWritable && member.Property? ==> (w <==> member.setter.Some?)
    ensures member.Field? ==> w == baseWritable
  {
    if baseWritable then true
    else if member.Property? then member.setter.Some?
    else baseWritable
  }

  /** The rule never makes a member non-writable and never upgrades a get-only property. */
  lemma UpgradeMonotone(member: Member, baseWritable: bool)
    ensures UpgradedWritable(member, baseWritable) == (baseWritable || (member.Property? && member.setter.Some?))
  {
  }

  /**
   * CreateProperty, given what the base resolver made of the member: turns a
   * non-writable property with a setter writable and returns the same object.
   */
  method CreateProperty(member: Member, baseProperty: JsonProperty) returns (p: JsonProperty)
    modifies baseProperty`writable
    ensures p == baseProperty
    ensures p.writable == UpgradedWritable(member, old(baseProperty.writable))
  {
    p := baseProperty;
    if !p.writable {
      if member.Property? {
        p.writable := member.setter.Some?;
      }
    }
  }
}
