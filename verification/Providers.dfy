/** GPU providers as the protocol sees them: a table of instances behind calls that may fail. */
module Providers {
  import opened Wrappers
  import opened Sessions

  /** An instance, with the tags its provider's listing reports for it. */
  datatype Instance = Instance(running: bool, sshHost: string, sshPort: int, sshUser: string,
                               sessionTag: string, deploymentTag: string)

  datatype ProviderInstance = ProviderInstance(id: string, instance: Instance)

  type Instances = map<InstanceKey, Instance>

  datatype ProviderError = InstanceNotFound | Unavailable

  predicate HasPrefix(s: string, prefix: string) {
    |prefix| <= |s| && s[..|prefix|] == prefix
  }

  /** Whether a listed deployment tag belongs to a deployment: either may be a cut-off copy of the other. */
  predicate IsOurs(tag: string, deploymentID: string) {
    if tag == "" || deploymentID == "" then tag == deploymentID
    else if |tag| <= |deploymentID| then HasPrefix(deploymentID, tag)
    else HasPrefix(tag, deploymentID)
  }

  /** A listing of one provider: real instances, each once. */
  ghost predicate ListsInstances(instances: Instances, provider: string, list: seq<ProviderInstance>) {
    && (forall i, j :: 0 <= i < j < |list| ==> list[i].id != list[j].id)
    && (forall p <- list :: InstanceKey(provider, p.id) in instances && instances[InstanceKey(provider, p.id)] == p.instance)
  }

  ghost predicate ListsAll(instances: Instances, provider: string, list: seq<ProviderInstance>) {
    forall k <- instances :: k.provider == provider ==> ProviderInstance(k.id, instances[k]) in list
  }

  /** What a destroy call may do. It may fail, or succeed late: unless the provider is reliable the instance
      may be gone, stopped or untouched whatever the answer. Nothing else changes. */
  ghost predicate DestroyMayLead(before: Instances, after: Instances, key: InstanceKey, reliable: bool) {
    && after - {key} == before - {key}
    && (key in after ==> key in before && (after[key] == before[key] || after[key] == before[key].(running := false)))
    && (reliable ==> key !in after)
  }

  class ProviderRegistry {
    const registered: set<string>
    /** Whether every call succeeds, takes effect at once and reports everything. */
    const reliable: bool
    var instances: Instances

    constructor (registered: set<string>, reliable: bool)
      ensures instances == map[] && this.registered == registered && this.reliable == reliable
    {
      this.registered, this.reliable, instances := registered, reliable, map[];
    }

    method ListAllInstances(provider: string) returns (r: Result<seq<ProviderInstance>, ProviderError>)
      ensures reliable ==> r.Ok? && ListsAll(instances, provider, r.value)
      ensures r.Ok? ==> ListsInstances(instances, provider, r.value)
    {
      var fails: bool := *;
      if fails && !reliable {
        return Err(Unavailable);
      }
      var list: seq<ProviderInstance> := [];
      var todo := instances.Keys;
      while todo != {}
        invariant todo <= instances.Keys
        invariant ListsInstances(instances, provider, list)
        invariant forall p <- list :: InstanceKey(provider, p.id) !in todo
        invariant reliable ==> forall k <- instances :: k !in todo && k.provider == provider ==> ProviderInstance(k.id, instances[k]) in list
      {
        var key :| key in todo;
        var skipped: bool := *;
        if key.provider == provider && (reliable || !skipped) {
          list := list + [ProviderInstance(key.id, instances[key])];
        }
        todo := todo - {key};
      }
      r := Ok(list);
    }

    /** A create call may fail, or succeed without the caller hearing of it. The provider picks the ID. */
    method CreateInstance(provider: string, id: string, instance: Instance) returns (r: Result<ProviderInstance, ProviderError>)
      modifies this
      ensures var key := InstanceKey(provider, id);
              && (instances == old(instances) || (id != "" && key !in old(instances) && instances == old(instances)[key := instance]))
              && (r.Ok? ==> r.value == ProviderInstance(id, instance) && id != "" && key !in old(instances)
                            && instances == old(instances)[key := instance])
              && (reliable && r.Err? ==> instances == old(instances))
    {
      var key := InstanceKey(provider, id);
      var fails: bool, created: bool := *, *;
      if id == "" || key in instances || (fails && (reliable || !created)) {
        return Err(Unavailable);
      }
      instances := instances[key := instance];
      r := if fails then Err(Unavailable) else Ok(ProviderInstance(id, instance));
    }

    method DestroyInstance(provider: string, id: string) returns (err: Option<ProviderError>)
      modifies this
      ensures DestroyMayLead(old(instances), instances, InstanceKey(provider, id), reliable)
      ensures reliable ==> err.None? || InstanceKey(provider, id) !in old(instances)
    {
      var key := InstanceKey(provider, id);
      var fails: bool, effect: int := *, *;
      if reliable {
        err := if key in instances || !fails then None else Some(InstanceNotFound);
        instances := instances - {key};
      } else {
        err := if fails then Some(Unavailable) else None;
        if effect == 0 {
          instances := instances - {key};
        } else if effect == 1 && key in instances {
          instances := instances[key := instances[key].(running := false)];
        }
      }
    }

    /** A status answer is true; an unreliable provider may fail to answer. */
    method GetInstanceStatus(provider: string, id: string) returns (r: Result<Instance, ProviderError>)
      ensures var key := InstanceKey(provider, id);
              && (r.Ok? ==> key in instances && r.value == instances[key])
              && (r == Err(InstanceNotFound) ==> key !in instances)
              && (reliable && r.Err? ==> r == Err(InstanceNotFound))
    {
      var fails: bool := *;
      if fails && !reliable {
        return Err(Unavailable);
      }
      var key := InstanceKey(provider, id);
      r := if key in instances then Ok(instances[key]) else Err(InstanceNotFound);
    }
  }
}
