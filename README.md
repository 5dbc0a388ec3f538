# Namespaced watch cache and platform-owner glue, modelled in Dafny

This project models the core of the cluster cloud-controller-manager
operator's controller library:

- the **namespaced watch cache** (`controllers/cache.go`): a
  `namespacedCache` that keeps one controller-runtime cache ("session") per
  namespace string, a registry namespace → set of watch keys
  `"<GroupKind>/<name>"`, and one event channel. `Watch` validates the
  object's namespace against the scope the REST mapper reports, returns
  early when the object's key is already registered, creates the
  namespace's session on first use, attaches an `eventToChannelHandler`
  bound to the object's name and records the key. The handler pushes
  client objects onto the channel;
- the **resource-list deduplication** (`pkg/cloud/group.go`):
  `OwnedResourcesGroup` flattens per-platform resource lists and keeps the
  first resource of each GroupVersionKind;
- the **Infrastructure platform owner** (`pkg/platform/infrastructure.go`):
  `Init`, `Mapper`, `GetOwner`, `Object` and `getResources`.

Files:

- `kube.dfy` (module `Kube`): the client-library values the code uses.
  These are objects, GroupVersionKinds, GroupKinds and their `String()`,
  errors, and result wrappers. The scheme lookup `GVKForObject` and the
  mapper lookup `RESTMapping` are total functions that either answer or fail.
- `controllers_cache.dfy` (module `Controllers`): the cache. Each
  state-changing operation is first a function on a `CacheState` value:
  `InformerStep` for `getInformer`, `StartWatchStep` for `watch`, and
  `WatchStep` for `Watch`. Lemmas state their properties. The invariant
  `Consistent` is proved preserved. The class `NamespacedCache` then runs
  the same steps on its fields. Its methods are proved to produce exactly
  the state and result of those functions, and to keep the invariant.
- `cloud_group.dfy` (module `Cloud`): the nested loop of
  `OwnedResourcesGroup`, proved equal to a reference definition `Distinct`.
  Lemmas prove no duplicate kinds, every kind kept, first occurrence kept,
  subsequence, and identity on duplicate-free input.
- `platform_infrastructure.dfy` (module `Platform`): the class
  `InfrastructureOwner` and `getResources`.

What the Kubernetes libraries return is an input:

- `GVKForObject` and `RESTMapping` are the `scheme` and `mapper` functions
  of `Settings`.
- `scheme.Scheme` and `NewDiscoveryRESTMapper` are parameters of
  `NewNamespacedCache`.
- What `cache.New` and `GetInformer` answer on one `Watch` call is the
  `EngineReplies` argument.
- In the platform owner, the results of `List` and `Get` are parameters.
  So is the list `GetAWSResources` returns.

The handlers that `informer.AddEventHandler` attaches live inside the
informers in the source. Here they are recorded in the cache's `handlers`
field as `Attachment(informer, handler)`. The informer is identified by
namespace and kind.

## Behaviour as written

The model follows the code where it differs from its own comments:

- `watch` returns `nil` when `getInformer` fails (controllers/cache.go:108-111).
  A failed `cache.New` or `GetInformer` is therefore reported to `Watch`'s
  caller as success, with no key recorded. In the source, a scheme or
  mapper lookup that fails inside `getInformer` after succeeding in
  `Watch`'s own `ensureNamespace` is swallowed the same way; the model
  cannot reach that case (see "## Left out"). A session that `cache.New`
  built stays stored even when `GetInformer` then fails. A later `Watch`
  of the same object reuses that session and tries `GetInformer` again
  (`WatchSwallowsInformerError`, `WatchReusesStoredSession`).
- The name comparison in `queueEventForObject` (controllers/cache.go:222-224)
  has an empty body. The comment at controllers/cache.go:119-120 says a
  handler forwards events for its own object only. In fact every handler
  forwards every `client.Object` its informer delivers, whatever its name
  (`Forwarded`, `ForwardedIgnoresName`, `ConfigMapScenario`). Only nil and
  non-object payloads are dropped.
- `NewNamespacedCache` fails when `Config` is nil. It also fails when
  `Mapper` is unset and building the discovery mapper fails
  (controllers/cache.go:44-50).
- Sessions are keyed by the object's namespace string, whatever the kind's
  scope. A namespace-scoped object can never reach the `""` session,
  because `ensureNamespace` refuses it. So the handlers on the `""` session
  all watch cluster-scoped kinds (`ClusterSessionOnlyClusterScoped`).
- The registry and the session map only grow; nothing is removed
  (`WatchOnlyGrows`).

## Model

| member | source | states |
|---|---|---|
| `Controllers.ResolveOptions` | controllers/cache.go:33-56 | Fails exactly when Config is nil (with "Config is required") or when Mapper is unset and discovery fails (with the wrapped error). Otherwise it keeps Config and the given Scheme, Mapper and Resync, and defaults the unset ones to the default scheme, the discovered mapper and 10 hours. |
| `Controllers.NewNamespacedCache` | controllers/cache.go:33-66 | Returns the option error, or a fresh cache with the resolved settings, empty session map, empty registry, no handlers and a fresh, empty channel. |
| `Controllers.NamespacedCache.constructor` | controllers/cache.go:57-65 | The struct literal: both maps empty, a new channel, the invariant holds. |
| `Controllers.EmptyStateConsistent` | controllers/cache.go:57-65 | The empty cache satisfies the invariant. |
| `Controllers.NamespacedCache.EventStream` | controllers/cache.go:78-80 | Always returns the channel made at construction. |
| `Controllers.IsNamespaced` | controllers/cache.go:164-174 | Fails with the scheme error, or else with the mapper error. Otherwise it answers whether the mapper reports namespace scope. |
| `Controllers.EnsureNamespace` | controllers/cache.go:176-185 | Passes exactly when the kind resolves and its scope is known, and a namespace-scoped kind has a non-empty namespace. Otherwise it returns the lookup error or "namespaced objects must set their namespace". |
| `Controllers.WatchKey` | controllers/cache.go:187-193 | Fails exactly when the scheme lookup fails, with its error. |
| `Controllers.WatchKeyIgnoresVersion` | controllers/cache.go:187-193 | Objects with the same group-kind and name get the same key, whatever their API versions and namespaces. |
| `Controllers.KeyOfSeparatesNames` | controllers/cache.go:192 | Within one group-kind, two keys are equal exactly when the names are. |
| `Controllers.Forwarded` | controllers/cache.go:213-230 | A client object is forwarded as exactly one event carrying it, whatever the bound name. Nil and non-object payloads produce nothing. |
| `Controllers.ForwardedIgnoresName` | controllers/cache.go:222-224 | The bound name does not change what is forwarded: the mismatch branch is empty. |
| `Controllers.EventChannel.constructor` | controllers/cache.go:63 | The channel made for a new cache has had nothing sent on it. |
| `Controllers.EventChannel.Send` | controllers/cache.go:227-229 | A send appends exactly that event to the channel. |
| `Controllers.EventToChannelHandler.QueueEventForObject` | controllers/cache.go:213-230 | The channel gains exactly the forwarded events. |
| `Controllers.EventToChannelHandler.OnAdd` | controllers/cache.go:200-202 | The channel gains exactly the events forwarded for the added object. |
| `Controllers.EventToChannelHandler.OnUpdate` | controllers/cache.go:204-206 | The channel gains exactly the events forwarded for the new object; the old object is ignored. |
| `Controllers.EventToChannelHandler.OnDelete` | controllers/cache.go:208-210 | The channel gains exactly the events forwarded for the deleted object. |
| `Controllers.SessionInformer` | controllers/cache.go:145-146 | A session's GetInformer: its refusal is passed on, then a scheme failure. Otherwise the informer is that session's, for the object's kind. |
| `Controllers.InformerStep` | controllers/cache.go:139-162 | A validation error returns with the map unchanged, and an existing session is reused. At most the object's namespace gains an entry, and it is that namespace's session. A failed cache.New leaves the map unchanged. A session cache.New built is stored, whatever GetInformer answers. An informer is served exactly when the object is admitted, a session exists or cache.New passes, and that session's GetInformer passes. Otherwise the error is the validation error, cache.New's or GetInformer's, as returned. A served informer belongs to the object's namespace and kind. |
| `Controllers.StartWatchStep` | controllers/cache.go:107-134 | The session map changes exactly as getInformer changes it. A getInformer error gives nil, with nothing registered or attached. The only error returned is the key lookup's, and then nothing is registered or attached. Otherwise the key is recorded and one handler, bound to the object's name, is appended on the served informer. |
| `Controllers.WatchStep` | controllers/cache.go:82-105 | A refused object returns its error with the state unchanged. A registered key gives nil and no change. For an already-watched namespace, a key lookup error is returned with no change. An admitted, unregistered object goes to watch. An error never registers a key or attaches a handler. |
| `Controllers.NamespacedCache.GetInformer` | controllers/cache.go:139-162 | Updates the session map and returns the result exactly as InformerStep says; keeps the invariant. |
| `Controllers.NamespacedCache.StartWatch` | controllers/cache.go:107-134 | Updates the state and returns the result exactly as StartWatchStep says; keeps the invariant. |
| `Controllers.NamespacedCache.Watch` | controllers/cache.go:82-105 | Updates the state and returns the result exactly as WatchStep says; keeps the invariant. |
| `Controllers.WatchRejectsWithoutChange` | controllers/cache.go:82-86 | A scope-lookup error, or a namespace-scoped object with an empty namespace, is returned as the error. Sessions, registry and handlers stay unchanged. |
| `Controllers.WatchIsIdempotent` | controllers/cache.go:88-104 | An object whose key is registered for its namespace gets nil and changes nothing. |
| `Controllers.WatchAttachesAtMostOne` | controllers/cache.go:82-134 | Either registry and handlers are unchanged, or exactly one handler is appended and the key recorded. The handler is bound to the object's name, on its namespace's informer for its kind. The second happens exactly when the object is valid, unregistered, and getInformer succeeds, and then the result is nil. |
| `Controllers.WatchSwallowsInformerError` | controllers/cache.go:107-111 | When getInformer fails the result is nil. Only the session map may have changed, and a session cache.New built stays stored. |
| `Controllers.WatchReusesStoredSession` | controllers/cache.go:143-146 | Once a namespace has a session, cache.New's answer makes no difference to a Watch. |
| `Controllers.WatchOnlyGrows` | controllers/cache.go:126-131 | Sessions are never replaced or removed, and registered keys stay registered. Handlers are only appended. Only the object's namespace can gain entries. |
| `Controllers.StartWatchPreservesConsistent` | controllers/cache.go:107-134 | watch on an unregistered object keeps the invariant. Sessions stay scoped to their key. Handlers stay on the cache's channel, validated, registered and unique per namespace and key. Every key keeps its handler. |
| `Controllers.WatchPreservesConsistent` | controllers/cache.go:82-105 | Watch keeps the invariant. |
| `Controllers.ClusterSessionOnlyClusterScoped` | controllers/cache.go:136-161 | Every handler on the "" session watches a kind the mapper calls cluster-scoped. |
| `Controllers.WatchRepeatedlyOnRegistered` | controllers/cache.go:99-104 | Once the key is registered, any number of further Watch calls change nothing. |
| `Controllers.RepeatedWatchAttachesOnce` | controllers/cache.go:82-134 | Any sequence of Watch calls for one object, with any engine replies, attaches at most one handler, bound to its name. Earlier handlers are kept. |
| `Controllers.ConfigMapScenario` | controllers/cache.go:82-134 | Watching ConfigMap kube-system/cc-config on a new cache creates the kube-system session, registers "ConfigMap/cc-config" and attaches one handler. That handler forwards an update of other-config too. |
| `Controllers.MissingNamespaceScenario` | controllers/cache.go:84-86 | A ConfigMap without a namespace is refused and the new cache stays empty. |
| `Cloud.OwnedResourcesGroup` | pkg/cloud/group.go:11-30 | The nested loop returns exactly Distinct of the flattened lists. |
| `Cloud.FlattenHoldsAllLists` | pkg/cloud/group.go:18-19 | The flattened input holds exactly the resources of all lists. |
| `Cloud.DistinctIsFirstPositions` | pkg/cloud/group.go:17-26 | The result is the input taken at the positions of the first resource of each kind, in order. |
| `Cloud.FirstPositionsAreFirsts` | pkg/cloud/group.go:22-25 | Those positions are increasing and are exactly the first occurrences of their kinds. |
| `Cloud.FirstResourceIsKept` | pkg/cloud/group.go:22-25 | The first resource of each kind is in the result. |
| `Cloud.KeptResourceIsFirst` | pkg/cloud/group.go:22-25 | Every resource of the result is the first of its kind in the input. |
| `Cloud.DistinctHasDistinctKinds` | pkg/cloud/group.go:17-26 | No two resources of the result share a GroupVersionKind. |
| `Cloud.DistinctKeepsAllKinds` | pkg/cloud/group.go:18-27 | The result has exactly the kinds of the input. |
| `Cloud.DistinctIsSubsequence` | pkg/cloud/group.go:12-29 | The result is a subsequence of the input, so it keeps order and is no longer than the input. |
| `Cloud.DistinctOfDistinctKinds` | pkg/cloud/group.go:12-29 | An input without repeated kinds is returned unchanged. |
| `Cloud.DistinctAppend` | pkg/cloud/group.go:20-25 | The next resource is kept exactly when its GroupVersionKind has not been seen. |
| `Cloud.KindsOfAppend` | pkg/cloud/group.go:22-23 | After each resource, the seen set is the earlier kinds plus that resource's kind. |
| `Cloud.DistinctOfEmpty` | pkg/cloud/group.go:12-29 | Empty input gives an empty result. |
| `Platform.GetResources` | pkg/platform/infrastructure.go:70-78 | The AWS resource list for "AWS", nil for every other platform type. |
| `Platform.InfrastructureOwner.constructor` | pkg/platform/infrastructure.go:21-23 | The zero owner holds no objects. |
| `Platform.InfrastructureOwner.Object` | pkg/platform/infrastructure.go:25-27 | A new, empty Infrastructure. |
| `Platform.InfrastructureOwner.Init` | pkg/platform/infrastructure.go:29-47 | Returns true exactly when the list call succeeded with at least one item. Then the objects become the items; otherwise they stay unchanged. |
| `Platform.InfrastructureOwner.Mapper` | pkg/platform/infrastructure.go:49-57 | The returned function gives the same answer for every argument. The answer is one request per stored object, in order, keyed by its namespace and name. |
| `Platform.MapperSnapshotsObjects` | pkg/platform/infrastructure.go:50-56 | After the objects are replaced, a function returned earlier still yields the requests for the old objects. |
| `Platform.InfrastructureOwner.GetOwner` | pkg/platform/infrastructure.go:59-68 | On a Get error, returns that error with nil owner and nil resources. Otherwise returns the fetched Infrastructure and the resources of its Status.Platform. |

## Left out

- Concurrency: `go c.Start(ctx)` (controllers/cache.go:159), the sessions'
  background synchronisation, and unsynchronised map access from
  concurrent `Watch` calls. The model is sequential and records only that a
  session was created.
- Channel blocking and backpressure on the unbuffered channel: the channel is
  the append-only sequence of events sent on it, and nothing drains it.
- The informers' delivery of add/update/delete notifications to their
  handlers: the handler methods take the payload an informer would pass.
- `ctx` arguments. The scheme and mapper a session is built with are always
  the cache's own, so `Session` records only config, resync period and
  namespace.
- `Resync` is a pointer in the source (and the default points at a package
  variable). The model keeps the value, in nanoseconds.
- Every scheme lookup (`GVKForObject`) and mapper lookup (`RESTMapping`)
  is assumed to give the same answer on every call. The source repeats
  them within one `Watch`: in `ensureNamespace` at
  controllers/cache.go:84 and again at 140, in `watchKey` at 94 and 114,
  and inside the session's `GetInformer`. A dynamic mapper can answer
  differently between those calls. So the model does not capture a
  lookup error at 140 or 114 after an earlier success, nor a mapper
  whose scopes change over time. The invariant `Consistent` (its
  `Admissible` clause) and `ClusterSessionOnlyClusterScoped` rest on this
  assumption.
- Errors are identified by message only. Errors from the Kubernetes
  libraries are whatever the abstract functions and replies return.
- Logging (`klog.Info`, `Errorf`, `Warning`).
- In `Init`, `ctrl.GetConfigOrDie`, `client.New` and the `klog.Fatalf`
  exit on a client error are process exit and configuration loading. The
  model starts from the outcome of the `List` call, and the scheme argument
  is not used.
- `GetAWSResources` is not part of this model. It is the `resourceUnion`
  parameter of `OwnedResourcesGroup` (the source passes a one-element list
  holding its result) and the `awsResources` parameter of `GetResources`
  and `GetOwner`.
- Nil and empty slices are not distinguished: a nil slice is `[]`.
- pkg/platform/owner_interface.go declares the `PlatformOwner` interface.
  It has no behaviour of its own, and `InfrastructureOwner` provides its
  four methods directly.
