# Instance lifecycle and configuration-overlay reconciliation

This Dafny project models the instance handlers of GoTrue's admin API
(`api/instance.go`). An *instance* is a tenant's configuration record. It has
an id, a caller-supplied UUID, a base configuration, and a map of named
*contexts*, which are configuration overlays. The handlers work as follows:

- load an instance by id;
- create an instance, refusing a UUID that is already taken;
- update an instance by merging the request's base configuration into the
  stored one and merging or inserting each context the request names;
- delete an instance.

Files:

- `results.dfy` (module `Results`): `Option` (a Go value that may be nil) and
  `Result`.
- `overlay.dfy` (module `Overlay`): the merge library's interface, the
  base-config merge step, and the merge-or-insert loop over incoming
  contexts. The loop has two descriptions: `ApplyInOrder` runs it over one
  given visiting order, and `Reconciled` states its outcome declaratively.
  `ApplyInOrder` is the specification helper for the range loop of
  api/instance.go:104-113; `ApplyInOrderReconciles` states what it means.
- `instance.dfy` (module `Instances`): the instance record, the request
  parameters, the error kinds, the load step `LoadInstance`, and the class
  `InstanceStore`. The class holds the persisted instances as a `map` from id
  to record. Its methods are the create, update and delete handlers.
  `InstanceStore.HasUUID` is the specification helper for the success case
  of the UUID lookup in create (api/instance.go:57-63); `CreateInstance`'s
  contract uses it.

The merge (`mergo.MergeWithOverwrite`) comes from a reflection-based library,
so the model takes it as a parameter, `Merger(apply, intoNil)`:

- `apply(dst, src)` is the merge of two configurations. It returns the merged
  configuration or an error.
- `intoNil(src)` is what the library reports when the destination is a nil
  base-config pointer. This happens when an instance was created without a
  `config`. Go passes that pointer by value, so the stored base config stays
  nil whatever the library does.

Configurations are a type parameter `C`. A merge error (`MergeError`) is the
Go `error` the library returns, represented by its message.
Every property holds for every merge function. No field-level merge
semantics are assumed, such as identity on an empty source or idempotence.

Each storage call's failure, other than "not found", is a boolean parameter
of that call: `dbFault` for `LoadInstance`, `loadFault` for the load step
of update and delete, `lookupFault` for the UUID lookup of create, and
`writeFault` for the final write of create, update and delete. A request body that
cannot be decoded is `None`. The fresh id of a new instance is a parameter
that must not already be in the store. Update and delete first run
`loadInstance`, as their routes do, so an unknown id gives `NotFound` before
the body is looked at.

The context loop takes names with `:|` in no fixed order, as Go's map
iteration does. The contract of `ReconcileContexts` therefore holds for every
visiting order. `OrderDoesNotMatter` shows that every order gives the same
outcome. When several names conflict, the model fixes only that
the reported error belongs to one of them. Which one depends on the order.

## Model

| member | source | states |
|---|---|---|
| Instances.LoadInstance | api/instance.go:15-28 | a missing id gives NotFound; any other storage failure gives LoadFailed (an internal error); otherwise the stored record is returned unchanged; each case happens exactly when its condition holds |
| Instances.InstanceStore.CreateInstance | api/instance.go:51-82 | an undecodable body gives BadParams; a failed UUID lookup gives LookupFailed; an existing UUID gives DuplicateUUID; a failed write gives CreateFailed; each failure leaves the store unchanged; success adds exactly one record under the fresh id, holding the given UUID, base config and contexts verbatim; ids and UUIDs stay unique |
| Instances.InstanceStore.UpdateInstance | api/instance.go:89-120 | load errors pass through; then an undecodable body gives BadParams; a base-config merge failure gives that merge error; otherwise a context conflict gives the error of one conflicting name; success happens exactly when every merge succeeds and the write succeeds; it writes back one record with the same id and UUID, its base config merged and its contexts reconciled; any failure leaves the store exactly as before; a request without base config or without contexts leaves that part as it was |
| Instances.InstanceStore.DeleteInstance | api/instance.go:122-132 | load errors pass through; a failed deletion gives DeleteFailed and changes nothing; success removes exactly the loaded id, after which loading it gives NotFound |
| Instances.DeleteTwice | api/instance.go:122-126 | deleting an existing instance twice succeeds the first time and gives NotFound the second time, so deletion is not idempotent |
| Instances.CreateTwice | api/instance.go:57-74 | two creates with one UUID: the first adds the record and the second is refused with DuplicateUUID, leaving only the first record added |
| Instances.UpdatedFromIsUnique | api/instance.go:97-116 | the stored record and the request determine the updated record uniquely, so the update contract fixes the new store state |
| Overlay.MergeBase | api/instance.go:97-101 | a request without a base config leaves the stored one as it was; otherwise the result is the merge of the incoming config into the stored one, and a failure is the merge's own error; for a nil stored config the step fails exactly when the library reports an error, and otherwise the config stays nil |
| Overlay.ReconcileContexts | api/instance.go:103-114 | its result is the loop run over the visiting order it took (`ApplyInOrder`); it succeeds exactly when no incoming context conflicts with the stored one of its name; on success the names are the old names plus the incoming names, unnamed contexts keep their old values, new names hold the incoming value verbatim, and existing names hold the merge of the incoming value into the old one; on failure the error is that of a conflicting name |
| Overlay.ApplyInOrderReconciles | api/instance.go:103-114 | running the loop over any order of distinct incoming names succeeds exactly when none of them conflicts; it then reconciles exactly those names (old names kept, new ones inserted verbatim, existing ones merged); a failure carries the merge error of one of them |
| Overlay.OrderDoesNotMatter | api/instance.go:104 | any two complete iteration orders over the incoming names both fail or both succeed, and on success they give the same contexts |
| Overlay.ReconciledIsUnique | api/instance.go:104-113 | whatever order the range loop visits names in, a successful reconciliation gives one map |
| Overlay.NoIncomingLeavesContexts | api/instance.go:103-104 | an empty incoming contexts map leaves the stored contexts exactly as they were, like an absent one |
| Overlay.DisjointRequestsCompose | api/instance.go:103-114 | two successive requests naming disjoint contexts reconcile to the same map as one request carrying both |
| Overlay.DisjointRequestsCommute | api/instance.go:103-114 | two requests naming disjoint contexts give the same contexts in either order |

## Left out

- JSON decoding of request bodies, chi URL parameters, logging, response
  serialisation and HTTP status codes. A decode failure is reduced to the
  `BadParams` error, and `Instances.ApiError.IsClientError` records which errors are
  client rejections.
- `GetAppManifest` and the response fields `Endpoint` and `State` (always
  "active"). They are constants with no logic. The `GetInstance` handler only
  serialises the loaded record, so `LoadInstance` covers it.
- The internals of `mergo.MergeWithOverwrite`. The merge is the abstract
  `Merger` parameter. The model does not capture that the library mutates the
  destination in place. That mutation is not observable here, because a
  failed update is never written back.
- Random id generation. The id is a supplied parameter that must not already
  be in the store.
- The database's own behaviour and error kinds beyond the not-found/other
  split, and the lost-update race between concurrent updates. The model is
  sequential, and each handler's store change is one atomic map update.
- Go's panic when an update inserts a context into a nil `Contexts` map.
  Stored contexts are a possibly empty map: a create without contexts stores
  the empty map, and nothing is claimed about the nil case.
- Cascading deletion of data tied to an instance. The source leaves it
  unimplemented.
