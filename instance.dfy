/**
 * The instance lifecycle: an instance is a tenant's configuration record,
 * kept by the persistence layer under its id. Instances are loaded by id,
 * created with a duplicate-UUID check, updated by reconciling the request's
 * base config and contexts into the stored ones, and deleted.
 *
 * The persistence layer is the map `instances` of an `InstanceStore`; a
 * storage failure other than "not found" is a boolean parameter of the
 * call that meets it, and a fresh id for a new instance is supplied by the
 * caller.
 */
module Instances {
  import opened Results
  import opened Overlay

  /** A stored instance. A nil base config is `None`; a nil contexts map is the empty map. */
  datatype Instance<C> = Instance(id: string, uuid: string, baseConfig: Option<C>, contexts: map<string, C>)

  /** The decoded body of a create or update request; `None` fields were absent (nil). */
  datatype InstanceRequestParams<C> = InstanceRequestParams(uuid: string, baseConfig: Option<C>, contexts: Option<map<string, C>>)

  /** Why a request was refused. */
  datatype ApiError =
    | NotFound          // no instance has the requested id
    | BadParams         // the request body could not be decoded
    | DuplicateUUID     // an instance with the requested UUID exists
    | LoadFailed        // storage error loading the instance
    | LookupFailed      // storage error looking the UUID up
    | CreateFailed      // storage error creating the instance
    | UpdateFailed      // storage error writing the updated instance
    | DeleteFailed      // storage error deleting the instance
    | MergeFailed(cause: MergeError)
  {
    /** Rejections of the client's input, as opposed to server faults. */
    predicate IsClientError() {
      NotFound? || BadParams? || DuplicateUUID?
    }
  }

  /** Every merge an update of `rec` with `p` asks for succeeds. */
  ghost predicate Mergeable<C>(m: Merger<C>, rec: Instance<C>, p: InstanceRequestParams<C>)
  {
    && MergeBase(m, rec.baseConfig, p.baseConfig).Success?
    && (p.contexts.Some? ==> NoConflict(m.apply, rec.contexts, p.contexts.value))
  }

  /** `r` is `rec` updated with `p`: same id and UUID, base config merged, contexts reconciled. */
  ghost predicate UpdatedFrom<C>(m: Merger<C>, rec: Instance<C>, p: InstanceRequestParams<C>, r: Instance<C>)
  {
    && r.id == rec.id
    && r.uuid == rec.uuid
    && MergeBase(m, rec.baseConfig, p.baseConfig) == Success(r.baseConfig)
    && (p.contexts.None? ==> r.contexts == rec.contexts)
    && (p.contexts.Some? ==> Reconciled(m.apply, rec.contexts, p.contexts.value, r.contexts))
  }

  /**
   * The load step of every per-instance route: fetches the instance with
   * this id from `instances`; `dbFault` is a storage error other than
   * "not found".
   */
  function LoadInstance<C>(instances: map<string, Instance<C>>, id: string, dbFault: bool): (r: Result<Instance<C>, ApiError>)
    ensures r.Success? <==> !dbFault && id in instances
    ensures r.Success? ==> r.value == instances[id]
    ensures r == Failure(NotFound) <==> !dbFault && id !in instances
    ensures r == Failure(LoadFailed) <==> dbFault
  {
    if dbFault then Failure(LoadFailed)
    else if id in instances then Success(instances[id])
    else Failure(NotFound)
  }

  /** An update's outcome is determined by the stored record and the request. */
  lemma UpdatedFromIsUnique<C>(m: Merger<C>, rec: Instance<C>, p: InstanceRequestParams<C>, r1: Instance<C>, r2: Instance<C>)
    requires UpdatedFrom(m, rec, p, r1)
    requires UpdatedFrom(m, rec, p, r2)
    ensures r1 == r2
  {
    if p.contexts.Some? {
      ReconciledIsUnique(m.apply, rec.contexts, p.contexts.value, r1.contexts, r2.contexts);
    }
  }

  class InstanceStore<C> {
    /** The persisted instances, by id. */
    var instances: map<string, Instance<C>>

    /** Each instance is stored under its own id, and no two instances share a UUID. */
    ghost predicate Valid()
      reads this
    {
      && (forall id :: id in instances ==> instances[id].id == id)
      && (forall a, b :: a in instances && b in instances && instances[a].uuid == instances[b].uuid ==> a == b)
    }

    constructor ()
      ensures Valid() && instances == map[]
    {
      instances := map[];
    }

    /** Some stored instance has this UUID. */
    predicate HasUUID(uuid: string)
      reads this
    {
      exists id :: id in instances && instances[id].uuid == uuid
    }

    /**
     * Creates an instance from a request body (`None`: undecodable).
     * `lookupFault` and `writeFault` are storage errors of the UUID lookup
     * and of the insertion.
     */
    method CreateInstance(body: Option<InstanceRequestParams<C>>, freshId: string, lookupFault: bool, writeFault: bool)
      returns (res: Result<Instance<C>, ApiError>)
      requires Valid()
      requires freshId !in instances
      modifies this
      ensures Valid()
      ensures res.Failure? ==> instances == old(instances)
      ensures body.None? ==> res == Failure(BadParams)
      ensures body.Some? && lookupFault ==> res == Failure(LookupFailed)
      ensures body.Some? && !lookupFault && old(HasUUID(body.value.uuid)) ==> res == Failure(DuplicateUUID)
      ensures body.Some? && !lookupFault && !old(HasUUID(body.value.uuid)) && writeFault ==> res == Failure(CreateFailed)
      ensures res.Success? <==> body.Some? && !lookupFault && !old(HasUUID(body.value.uuid)) && !writeFault
      ensures res.Success? ==>
                && res.value == Instance(freshId, body.value.uuid, body.value.baseConfig,
                                         if body.value.contexts.Some? then body.value.contexts.value else map[])
                && instances == old(instances)[freshId := res.value]
    {
      if body.None? {
        return Failure(BadParams);
      }
      var params := body.value;
      if lookupFault {
        return Failure(LookupFailed);
      }
      if HasUUID(params.uuid) {
        return Failure(DuplicateUUID);
      }
      var contexts := if params.contexts.Some? then params.contexts.value else map[];
      var i := Instance(freshId, params.uuid, params.baseConfig, contexts);
      if writeFault {
        return Failure(CreateFailed);
      }
      instances := instances[freshId := i];
      res := Success(i);
    }

    /**
     * Loads the instance `id`, then applies the update request `body` to it
     * in memory and writes it back once. `loadFault` and `writeFault` are
     * storage errors of the load and of the write.
     */
    method UpdateInstance(id: string, body: Option<InstanceRequestParams<C>>, m: Merger<C>, loadFault: bool, writeFault: bool)
      returns (res: Result<Instance<C>, ApiError>)
      requires Valid()
      modifies this
      ensures Valid()
      ensures res.Failure? ==> instances == old(instances)
      ensures LoadInstance(old(instances), id, loadFault).Failure? ==> res == LoadInstance(old(instances), id, loadFault)
      ensures !loadFault && id in old(instances) && body.None? ==> res == Failure(BadParams)
      ensures !loadFault && id in old(instances) && body.Some? ==>
                var base := MergeBase(m, old(instances[id]).baseConfig, body.value.baseConfig);
                base.Failure? ==> res == Failure(MergeFailed(base.error))
      ensures !loadFault && id in old(instances) && body.Some? && !Mergeable(m, old(instances[id]), body.value) ==>
                res.Failure? && res.error.MergeFailed?
      ensures res.Failure? && res.error.MergeFailed? ==>
                && !loadFault && id in old(instances) && body.Some?
                && var rec, p := old(instances[id]), body.value;
                   MergeBase(m, rec.baseConfig, p.baseConfig).Success? ==>
                     && p.contexts.Some?
                     && exists k :: Conflict(m.apply, rec.contexts, p.contexts.value, k) &&
                                    m.apply(rec.contexts[k], p.contexts.value[k]) == Failure(res.error.cause)
      ensures !loadFault && id in old(instances) && body.Some? && Mergeable(m, old(instances[id]), body.value) ==>
                (writeFault ==> res == Failure(UpdateFailed)) && (!writeFault ==> res.Success?)
      ensures res.Success? ==>
                && id in old(instances) && body.Some?
                && UpdatedFrom(m, old(instances[id]), body.value, res.value)
                && instances == old(instances)[id := res.value]
      ensures res.Success? && body.value.baseConfig.None? ==> res.value.baseConfig == old(instances[id]).baseConfig
      ensures res.Success? && body.value.contexts.None? ==> res.value.contexts == old(instances[id]).contexts
    {
      var loaded := LoadInstance(instances, id, loadFault);
      if loaded.Failure? {
        return Failure(loaded.error);
      }
      var i := loaded.value;
      if body.None? {
        return Failure(BadParams);
      }
      var params := body.value;
      var base := MergeBase(m, i.baseConfig, params.baseConfig);
      if base.Failure? {
        return Failure(MergeFailed(base.error));
      }
      var contexts := i.contexts;
      if params.contexts.Some? {
        var reconciled, _ := ReconcileContexts(m.apply, i.contexts, params.contexts.value);
        if reconciled.Failure? {
          return Failure(MergeFailed(reconciled.error));
        }
        contexts := reconciled.value;
      }
      i := i.(baseConfig := base.value, contexts := contexts);
      if writeFault {
        return Failure(UpdateFailed);
      }
      instances := instances[id := i];
      res := Success(i);
    }

    /**
     * Loads the instance `id` and deletes it. `loadFault` and `writeFault`
     * are storage errors of the load and of the deletion.
     */
    method DeleteInstance(id: string, loadFault: bool, writeFault: bool) returns (res: Result<(), ApiError>)
      requires Valid()
      modifies this
      ensures Valid()
      ensures res.Failure? ==> instances == old(instances)
      ensures LoadInstance(old(instances), id, loadFault).Failure? ==> res == Failure(LoadInstance(old(instances), id, loadFault).error)
      ensures !loadFault && id in old(instances) ==>
                res == if writeFault then Failure(DeleteFailed) else Success(())
      ensures res.Success? ==> instances == old(instances) - {id}
      ensures res.Success? ==> LoadInstance(instances, id, false) == Failure(NotFound)
    {
      var loaded := LoadInstance(instances, id, loadFault);
      if loaded.Failure? {
        return Failure(loaded.error);
      }
      var i := loaded.value;
      if writeFault {
        return Failure(DeleteFailed);
      }
      instances := instances - {i.id};
      res := Success(());
    }
  }

  /** Deleting an instance twice: the second deletion is refused with NotFound. */
  method DeleteTwice<C>(store: InstanceStore<C>, id: string) returns (first: Result<(), ApiError>, second: Result<(), ApiError>)
    requires store.Valid()
    requires id in store.instances
    modifies store
    ensures first.Success? && second == Failure(NotFound)
  {
    first := store.DeleteInstance(id, false, false);
    second := store.DeleteInstance(id, false, false);
  }

  /** Creating two instances with one UUID: the second creation is refused with DuplicateUUID. */
  method CreateTwice<C>(store: InstanceStore<C>, p: InstanceRequestParams<C>, id1: string, id2: string)
    returns (first: Result<Instance<C>, ApiError>, second: Result<Instance<C>, ApiError>)
    requires store.Valid()
    requires id1 !in store.instances && id2 !in store.instances && id1 != id2
    requires !store.HasUUID(p.uuid)
    modifies store
    ensures first.Success? && second == Failure(DuplicateUUID)
    ensures store.instances == old(store.instances)[id1 := first.value]
  {
    first := store.CreateInstance(Some(p), id1, false, false);
    assert store.instances[id1].uuid == p.uuid;
    second := store.CreateInstance(Some(p), id2, false, false);
  }
}
