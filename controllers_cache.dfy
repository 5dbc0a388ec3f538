/** The namespaced watch cache of controllers/cache.go.

    A namespacedCache keeps one controller-runtime cache ("session") per
    namespace string, a registry namespace -> set of watch keys, and one
    event channel.  Watch validates the object's namespace against the
    scope the REST mapper reports, skips objects whose watch key is already
    registered, creates the namespace's session on first use, attaches an
    eventToChannelHandler bound to the object's name and records the key.

    The module first describes each state-changing operation as a function
    on a CacheState value (InformerStep, StartWatchStep, WatchStep) and
    proves its properties as lemmas; the class NamespacedCache then performs
    the same steps on its fields and is proved to agree with those functions.
    The Kubernetes machinery is abstract: GVKForObject and RESTMapping are
    the total functions in Settings; what cache.New and GetInformer answer
    on a given call is passed in as EngineReplies. */
module Controllers {
  import opened Kube

  /** defaultResyncTime: ten hours, as a time.Duration (nanoseconds). */
  const DefaultResyncTime: int := 10 * 60 * 60 * 1000000000

  const ConfigRequired: Error := Error("Config is required")
  const NamespaceRequired: Error := Error("namespaced objects must set their namespace")

  /** The error NewNamespacedCache wraps a failed NewDiscoveryRESTMapper in. */
  function RESTMapperError(cause: Error): Error
  {
    Error("could not create RESTMapper from config: " + cause.message)
  }

  // ---------------------------------------------------------------------
  // Construction

  /** CacheOptions: every field may be left unset (nil). */
  datatype CacheOptions = CacheOptions(
    config: Option<Config>,
    mapper: Option<RESTMapper>,
    scheme: Option<Scheme>,
    resync: Option<int>)

  /** The configuration fields of a namespacedCache once defaulted. */
  datatype Settings = Settings(config: Config, mapper: RESTMapper, scheme: Scheme, resync: int)

  /** The option handling of NewNamespacedCache.  `defaultScheme` stands for
      scheme.Scheme and `newDiscoveryRESTMapper` for
      apiutil.NewDiscoveryRESTMapper, both outside this model. */
  function ResolveOptions(opts: CacheOptions, defaultScheme: Scheme,
                          newDiscoveryRESTMapper: Config -> Result<RESTMapper>): (r: Result<Settings>)
    // it fails exactly when Config is nil, or when the mapper has to be
    // discovered and discovery fails
    ensures r.Failure? <==>
              opts.config.None? || (opts.mapper.None? && newDiscoveryRESTMapper(opts.config.value).Failure?)
    ensures opts.config.None? ==> r == Failure(ConfigRequired)
    ensures opts.config.Some? && opts.mapper.None? && newDiscoveryRESTMapper(opts.config.value).Failure? ==>
              r == Failure(RESTMapperError(newDiscoveryRESTMapper(opts.config.value).error))
    // otherwise the given values are kept and the unset ones defaulted
    ensures r.Success? ==>
              && r.value.config == opts.config.value
              && r.value.scheme == (if opts.scheme.Some? then opts.scheme.value else defaultScheme)
              && r.value.mapper == (if opts.mapper.Some? then opts.mapper.value
                                    else newDiscoveryRESTMapper(opts.config.value).value)
              && r.value.resync == (if opts.resync.Some? then opts.resync.value else DefaultResyncTime)
  {
    match opts.config
    case None => Failure(ConfigRequired)
    case Some(config) =>
      var scheme := if opts.scheme.None? then defaultScheme else opts.scheme.value;
      var mapper :=
        if opts.mapper.Some? then Success(opts.mapper.value)
        else match newDiscoveryRESTMapper(config)
             case Failure(e) => Failure(RESTMapperError(e))
             case Success(m) => Success(m);
      match mapper
      case Failure(e) => Failure(e)
      case Success(m) =>
        var resync := if opts.resync.None? then DefaultResyncTime else opts.resync.value;
        Success(Settings(config, m, scheme, resync))
  }

  // ---------------------------------------------------------------------
  // Scope resolution and watch keys (pure lookups)

  /** isNamespaced: the object's kind is namespace-scoped. */
  function IsNamespaced(env: Settings, obj: Obj): (r: Result<bool>)
    ensures r.Success? <==> env.scheme(obj).Success? && env.mapper(GroupKindOf(env.scheme(obj).value)).Success?
    ensures env.scheme(obj).Failure? ==> r == Failure(env.scheme(obj).error)
    ensures env.scheme(obj).Success? && env.mapper(GroupKindOf(env.scheme(obj).value)).Failure? ==>
              r == Failure(env.mapper(GroupKindOf(env.scheme(obj).value)).error)
    ensures r.Success? ==> (r.value <==> env.mapper(GroupKindOf(env.scheme(obj).value)).value == ScopeNamespace)
  {
    match env.scheme(obj)
    case Failure(e) => Failure(e)
    case Success(gvk) =>
      match env.mapper(GroupKindOf(gvk))
      case Failure(e) => Failure(e)
      case Success(scope) => Success(scope == ScopeNamespace)
  }

  /** A kind may be watched in namespace `ns`: its scope is known, and a
      namespace-scoped kind is not watched with an empty namespace. */
  predicate Admissible(env: Settings, gvk: GroupVersionKind, ns: string)
  {
    && env.mapper(GroupKindOf(gvk)).Success?
    && (env.mapper(GroupKindOf(gvk)).value == ScopeNamespace ==> ns != "")
  }

  /** ensureNamespace: namespace-scoped objects must set their namespace. */
  function EnsureNamespace(env: Settings, obj: Obj): (r: Outcome)
    ensures r.Pass? <==> env.scheme(obj).Success? && Admissible(env, env.scheme(obj).value, obj.namespace)
    ensures IsNamespaced(env, obj).Failure? ==> r == Fail(IsNamespaced(env, obj).error)
    ensures IsNamespaced(env, obj) == Success(true) && obj.namespace == "" ==> r == Fail(NamespaceRequired)
  {
    match IsNamespaced(env, obj)
    case Failure(e) => Fail(e)
    case Success(namespaced) =>
      if namespaced && obj.namespace == "" then Fail(NamespaceRequired) else Pass
  }

  /** The key "<GroupKind>/<name>" under which a watch is registered. */
  function KeyOf(gk: GroupKind, name: string): string
  {
    GroupKindString(gk) + "/" + name
  }

  /** watchKey. */
  function WatchKey(env: Settings, obj: Obj): (r: Result<string>)
    ensures r.Success? <==> env.scheme(obj).Success?
    ensures r.Failure? ==> r.error == env.scheme(obj).error
  {
    match env.scheme(obj)
    case Failure(e) => Failure(e)
    case Success(gvk) => Success(KeyOf(GroupKindOf(gvk), obj.name))
  }

  /** The key depends on the group, the kind and the name only: two objects
      of one group-kind and name, in any API versions and namespaces, share it. */
  lemma WatchKeyIgnoresVersion(env: Settings, a: Obj, b: Obj)
    requires env.scheme(a).Success? && env.scheme(b).Success?
    requires GroupKindOf(env.scheme(a).value) == GroupKindOf(env.scheme(b).value)
    requires a.name == b.name
    ensures WatchKey(env, a) == WatchKey(env, b)
  {
  }

  /** Within one group-kind the key identifies the name. */
  lemma KeyOfSeparatesNames(gk: GroupKind, n1: string, n2: string)
    ensures KeyOf(gk, n1) == KeyOf(gk, n2) <==> n1 == n2
  {
    var p := GroupKindString(gk) + "/";
    assert KeyOf(gk, n1) == p + n1 && KeyOf(gk, n2) == p + n2;
    if KeyOf(gk, n1) == KeyOf(gk, n2) {
      assert (p + n1)[|p|..] == n1;
      assert (p + n2)[|p|..] == n2;
    }
  }

  // ---------------------------------------------------------------------
  // Events and handlers

  /** event.GenericEvent. */
  datatype GenericEvent = GenericEvent(object: Obj)

  /** What an informer hands a handler: an interface{} that is nil, a
      client.Object, or some other value (a deletion tombstone, say). */
  datatype Payload = Nil | ClientObject(obj: Obj) | NonObject

  /** The unbuffered event channel, as the sequence of events sent on it. */
  class EventChannel {
    var sent: seq<GenericEvent>

    constructor()
      ensures sent == []
    {
      sent := [];
    }

    /** `eventsChan <- e`. */
    method Send(e: GenericEvent)
      modifies this
      ensures sent == old(sent) + [e]
    {
      sent := sent + [e];
    }
  }

  /** The events queueEventForObject sends for a payload.  Whatever name the
      handler is bound to, every client.Object is sent once and nothing
      else is sent: the name comparison has an empty body. */
  function Forwarded(name: string, o: Payload): (events: seq<GenericEvent>)
    ensures o.ClientObject? ==> events == [GenericEvent(o.obj)]
    ensures !o.ClientObject? ==> events == []
  {
    match o
    case Nil => []
    case NonObject => []
    case ClientObject(obj) => [GenericEvent(obj)]
  }

  /** The name a handler is bound to has no effect on what it forwards. */
  lemma ForwardedIgnoresName(n1: string, n2: string, o: Payload)
    ensures Forwarded(n1, o) == Forwarded(n2, o)
  {
  }

  /** eventToChannelHandler. */
  datatype EventToChannelHandler = EventToChannelHandler(eventsChan: EventChannel, name: string)
  {
    method OnAdd(obj: Payload)
      modifies eventsChan
      ensures eventsChan.sent == old(eventsChan.sent) + Forwarded(name, obj)
    {
      QueueEventForObject(obj);
    }

    /** Forwards the new object; the old one is ignored. */
    method OnUpdate(oldObj: Payload, obj: Payload)
      modifies eventsChan
      ensures eventsChan.sent == old(eventsChan.sent) + Forwarded(name, obj)
    {
      QueueEventForObject(obj);
    }

    method OnDelete(obj: Payload)
      modifies eventsChan
      ensures eventsChan.sent == old(eventsChan.sent) + Forwarded(name, obj)
    {
      QueueEventForObject(obj);
    }

    method QueueEventForObject(o: Payload)
      modifies eventsChan
      ensures eventsChan.sent == old(eventsChan.sent) + Forwarded(name, o)
    {
      if o.Nil? {
        return;
      }
      if !o.ClientObject? {
        return;
      }
      var obj := o.obj;
      if obj.name != name {
        // the object is not the one the handler is bound to, yet nothing is skipped
      }
      eventsChan.Send(GenericEvent(obj));
    }
  }

  // ---------------------------------------------------------------------
  // The cache state as a value

  /** The options cache.New was given for a session; scheme and mapper are
      always the cache's own. */
  datatype Session = Session(config: Config, resync: int, namespace: string)

  /** The session cache.New builds for namespace `ns`. */
  function SessionFor(env: Settings, ns: string): Session
  {
    Session(env.config, env.resync, ns)
  }

  /** The informer a session serves for one kind. */
  datatype Informer = Informer(namespace: string, gvk: GroupVersionKind)

  /** informer.AddEventHandler(handler). */
  datatype Attachment = Attachment(informer: Informer, handler: EventToChannelHandler)

  /** What the watch-and-cache engine answers on one Watch call, should it
      be asked: cache.New, then GetInformer on the namespace's session. */
  datatype EngineReplies = EngineReplies(cacheNew: Outcome, getInformer: Outcome)

  /** caches, watchedResources, and every handler attached so far. */
  datatype CacheState = CacheState(
    caches: map<string, Session>,
    watched: map<string, set<string>>,
    handlers: seq<Attachment>)

  function EmptyState(): CacheState
  {
    CacheState(map[], map[], [])
  }

  /** The keys registered for a namespace; none if it has no entry. */
  function KeysIn(watched: map<string, set<string>>, ns: string): set<string>
  {
    if ns in watched then watched[ns] else {}
  }

  /** The object's key is not registered for its namespace. */
  predicate Unwatched(env: Settings, s: CacheState, obj: Obj)
  {
    WatchKey(env, obj).Success? ==> WatchKey(env, obj).value !in KeysIn(s.watched, obj.namespace)
  }

  /** The (namespace, key) a handler watches. */
  function Site(a: Attachment): (string, string)
  {
    (a.informer.namespace, KeyOf(GroupKindOf(a.informer.gvk), a.handler.name))
  }

  /** The invariant the cache keeps:
      - every session is the one cache.New built for exactly its namespace;
      - a namespace has keys only once it has a session;
      - every handler sends on the cache's channel, passed namespace
        validation, and is recorded in the registry;
      - no two handlers watch the same (namespace, key);
      - every registered key has its handler. */
  ghost predicate Consistent(env: Settings, chan: EventChannel, s: CacheState)
  {
    && (forall ns | ns in s.caches :: s.caches[ns] == SessionFor(env, ns))
    && (forall ns | ns in s.watched :: ns in s.caches)
    && (forall i | 0 <= i < |s.handlers| :: AttachedWell(env, chan, s, s.handlers[i]))
    && (forall i, j | 0 <= i < j < |s.handlers| :: Site(s.handlers[i]) != Site(s.handlers[j]))
    && (forall ns, k | ns in s.watched && k in s.watched[ns] ::
          exists i :: 0 <= i < |s.handlers| && Site(s.handlers[i]) == (ns, k))
  }

  ghost predicate AttachedWell(env: Settings, chan: EventChannel, s: CacheState, a: Attachment)
  {
    && a.handler.eventsChan == chan
    && Admissible(env, a.informer.gvk, a.informer.namespace)
    && a.informer.namespace in s.watched
    && Site(a).1 in s.watched[a.informer.namespace]
  }

  lemma EmptyStateConsistent(env: Settings, chan: EventChannel)
    ensures Consistent(env, chan, EmptyState())
  {
  }

  /** GetInformer on the session for `ns`: the informer for the object's kind. */
  function SessionInformer(env: Settings, ns: string, obj: Obj, reply: Outcome): (r: Result<Informer>)
    // a refusal by the session is passed on as it is
    ensures reply.Fail? ==> r == Failure(reply.error)
    ensures reply.Pass? && env.scheme(obj).Failure? ==> r == Failure(env.scheme(obj).error)
    // otherwise the informer is the session's own, for the object's kind
    ensures r.Success? <==> reply.Pass? && env.scheme(obj).Success?
    ensures r.Success? ==> r.value == Informer(ns, env.scheme(obj).value)
  {
    match reply
    case Fail(e) => Failure(e)
    case Pass =>
      match env.scheme(obj)
      case Failure(e) => Failure(e)
      case Success(gvk) => Success(Informer(ns, gvk))
  }

  /** getInformer: the new caches map and the informer or error. */
  function InformerStep(env: Settings, caches: map<string, Session>, obj: Obj, replies: EngineReplies)
    : (r: (map<string, Session>, Result<Informer>))
    // a namespace-scoped object without a namespace, or an unknown kind, is refused unchanged
    ensures EnsureNamespace(env, obj).Fail? ==> r == (caches, Failure(EnsureNamespace(env, obj).error))
    // an existing session is reused
    ensures obj.namespace in caches ==> r.0 == caches
    // at most the object's namespace gains a session, and it is the one cache.New built for it
    ensures r.0.Keys <= caches.Keys + {obj.namespace}
    ensures forall ns | ns in caches :: ns in r.0 && r.0[ns] == caches[ns]
    ensures obj.namespace in r.0 ==> r.0[obj.namespace] == Lookup(caches, obj.namespace, SessionFor(env, obj.namespace))
    // a failing cache.New leaves the map as it was
    ensures obj.namespace !in caches && replies.cacheNew.Fail? ==> r.0 == caches
    // an informer is served exactly when the object is admitted, a session exists or is built,
    // and that session's GetInformer answers
    ensures r.1.Success? <==>
              && EnsureNamespace(env, obj).Pass?
              && (obj.namespace in caches || replies.cacheNew.Pass?)
              && replies.getInformer.Pass?
    // cache.New's error is returned as it is
    ensures EnsureNamespace(env, obj).Pass? && obj.namespace !in caches && replies.cacheNew.Fail? ==>
              r.1 == Failure(replies.cacheNew.error)
    // and so is the session's GetInformer error
    ensures (&& EnsureNamespace(env, obj).Pass?
             && (obj.namespace in caches || replies.cacheNew.Pass?)
             && replies.getInformer.Fail?) ==> r.1 == Failure(replies.getInformer.error)
    // a session cache.New built is kept, whatever GetInformer then answers
    ensures EnsureNamespace(env, obj).Pass? && (obj.namespace in caches || replies.cacheNew.Pass?) ==>
              r.0 == caches[obj.namespace := Lookup(caches, obj.namespace, SessionFor(env, obj.namespace))]
    // an informer is served by the object's namespace's session, for its kind
    ensures r.1.Success? ==>
              && EnsureNamespace(env, obj).Pass?
              && obj.namespace in r.0
              && r.1.value == Informer(obj.namespace, env.scheme(obj).value)
  {
    match EnsureNamespace(env, obj)
    case Fail(e) => (caches, Failure(e))
    case Pass =>
      var ns := obj.namespace;
      if ns in caches then (caches, SessionInformer(env, ns, obj, replies.getInformer))
      else
        match replies.cacheNew
        case Fail(e) => (caches, Failure(e))
        case Pass => (caches[ns := SessionFor(env, ns)], SessionInformer(env, ns, obj, replies.getInformer))
  }

  function Lookup(caches: map<string, Session>, ns: string, otherwise: Session): Session
  {
    if ns in caches then caches[ns] else otherwise
  }

  /** watch: attach a handler bound to the object's name and record its key.
      A getInformer failure is dropped: the result is then nil. */
  function StartWatchStep(env: Settings, chan: EventChannel, s: CacheState, obj: Obj, replies: EngineReplies)
    : (r: (CacheState, Outcome))
    // the session map changes exactly as getInformer changes it
    ensures r.0.caches == InformerStep(env, s.caches, obj, replies).0
    // a getInformer error is dropped: nil, and nothing registered or attached
    ensures InformerStep(env, s.caches, obj, replies).1.Failure? ==>
              r.1 == Pass && r.0.watched == s.watched && r.0.handlers == s.handlers
    // the only error returned is the key's, and then nothing is registered or attached
    ensures r.1.Fail? ==>
              && InformerStep(env, s.caches, obj, replies).1.Success?
              && WatchKey(env, obj) == Failure(r.1.error)
              && r.0.watched == s.watched && r.0.handlers == s.handlers
    // on success with an informer, the key is recorded and one handler appended
    ensures r.1.Pass? && InformerStep(env, s.caches, obj, replies).1.Success? ==>
              && WatchKey(env, obj).Success?
              && r.0.watched == s.watched[obj.namespace := KeysIn(s.watched, obj.namespace) + {WatchKey(env, obj).value}]
              && r.0.handlers == s.handlers + [Attachment(InformerStep(env, s.caches, obj, replies).1.value,
                                                          EventToChannelHandler(chan, obj.name))]
  {
    var (caches', informer) := InformerStep(env, s.caches, obj, replies);
    match informer
    case Failure(_) => (s.(caches := caches'), Pass)
    case Success(inf) =>
      match WatchKey(env, obj)
      case Failure(e) => (s.(caches := caches'), Fail(e))
      case Success(key) =>
        var ns := obj.namespace;
        (CacheState(caches',
                    s.watched[ns := KeysIn(s.watched, ns) + {key}],
                    s.handlers + [Attachment(inf, EventToChannelHandler(chan, obj.name))]),
         Pass)
  }

  /** Watch. */
  function WatchStep(env: Settings, chan: EventChannel, s: CacheState, obj: Obj, replies: EngineReplies)
    : (r: (CacheState, Outcome))
    // a refused object is returned with its error and the state unchanged
    ensures EnsureNamespace(env, obj).Fail? ==> r == (s, Fail(EnsureNamespace(env, obj).error))
    // a registered key means nil and no change
    ensures EnsureNamespace(env, obj).Pass? && !Unwatched(env, s, obj) ==> r == (s, Pass)
    // the key is looked up only for a namespace already watched, and its error returned unchanged
    ensures EnsureNamespace(env, obj).Pass? && obj.namespace in s.watched && WatchKey(env, obj).Failure? ==>
              r == (s, Fail(WatchKey(env, obj).error))
    // an unregistered, admitted object goes to watch
    ensures (&& EnsureNamespace(env, obj).Pass?
             && (obj.namespace !in s.watched || WatchKey(env, obj).Success?)
             && Unwatched(env, s, obj)) ==> r == StartWatchStep(env, chan, s, obj, replies)
    // an error never registers a key or attaches a handler
    ensures r.1.Fail? ==> r.0.watched == s.watched && r.0.handlers == s.handlers
  {
    match EnsureNamespace(env, obj)
    case Fail(e) => (s, Fail(e))
    case Pass =>
      if obj.namespace !in s.watched then StartWatchStep(env, chan, s, obj, replies)
      else
        match WatchKey(env, obj)
        case Failure(e) => (s, Fail(e))
        case Success(key) =>
          if key !in s.watched[obj.namespace] then StartWatchStep(env, chan, s, obj, replies)
          else (s, Pass)
  }

  // ---------------------------------------------------------------------
  // Properties of Watch

  /** A namespace-scoped object with an empty namespace, or one whose scope
      cannot be looked up, is refused with that error and nothing changes. */
  lemma WatchRejectsWithoutChange(env: Settings, chan: EventChannel, s: CacheState, obj: Obj, replies: EngineReplies)
    requires IsNamespaced(env, obj).Failure? || (IsNamespaced(env, obj) == Success(true) && obj.namespace == "")
    ensures WatchStep(env, chan, s, obj, replies) ==
              (s, Fail(if IsNamespaced(env, obj).Failure? then IsNamespaced(env, obj).error else NamespaceRequired))
  {
  }

  /** An object whose key is already registered for its namespace is a no-op. */
  lemma WatchIsIdempotent(env: Settings, chan: EventChannel, s: CacheState, obj: Obj, replies: EngineReplies)
    requires EnsureNamespace(env, obj).Pass?
    requires !Unwatched(env, s, obj)
    ensures WatchStep(env, chan, s, obj, replies) == (s, Pass)
  {
  }

  /** Watch either leaves registry and handlers as they were, or attaches
      exactly one handler, bound to the object's name on its namespace's
      informer for its kind, and records the object's key.  The second
      happens exactly when the object passes validation, is not yet
      registered and getInformer succeeds. */
  lemma WatchAttachesAtMostOne(env: Settings, chan: EventChannel, s: CacheState, obj: Obj, replies: EngineReplies)
    ensures var s' := WatchStep(env, chan, s, obj, replies).0;
            var attaches := EnsureNamespace(env, obj).Pass? && Unwatched(env, s, obj)
                            && InformerStep(env, s.caches, obj, replies).1.Success?;
            && (!attaches ==> s'.handlers == s.handlers && s'.watched == s.watched)
            && (attaches ==>
                  && WatchStep(env, chan, s, obj, replies).1 == Pass
                  && s'.handlers == s.handlers + [Attachment(Informer(obj.namespace, env.scheme(obj).value),
                                                             EventToChannelHandler(chan, obj.name))]
                  && s'.watched == s.watched[obj.namespace := KeysIn(s.watched, obj.namespace) + {WatchKey(env, obj).value}])
  {
  }

  /** The swallowed error: when getInformer fails on an unregistered,
      valid object, Watch still returns nil, and no key is recorded. */
  lemma WatchSwallowsInformerError(env: Settings, chan: EventChannel, s: CacheState, obj: Obj, replies: EngineReplies)
    requires EnsureNamespace(env, obj).Pass? && Unwatched(env, s, obj)
    requires InformerStep(env, s.caches, obj, replies).1.Failure?
    ensures WatchStep(env, chan, s, obj, replies) ==
              (s.(caches := InformerStep(env, s.caches, obj, replies).0), Pass)
    // a session cache.New built stays stored, so the next Watch reuses it
    ensures replies.cacheNew.Pass? || obj.namespace in s.caches ==>
              && obj.namespace in WatchStep(env, chan, s, obj, replies).0.caches
              && WatchStep(env, chan, s, obj, replies).0.caches[obj.namespace]
                 == Lookup(s.caches, obj.namespace, SessionFor(env, obj.namespace))
  {
  }

  /** Once a namespace has a session, Watch never calls cache.New for it
      again: what cache.New would answer makes no difference. */
  lemma WatchReusesStoredSession(env: Settings, chan: EventChannel, s: CacheState, obj: Obj,
                                 c1: Outcome, c2: Outcome, g: Outcome)
    requires obj.namespace in s.caches
    ensures WatchStep(env, chan, s, obj, EngineReplies(c1, g)) == WatchStep(env, chan, s, obj, EngineReplies(c2, g))
  {
  }

  /** Nothing is ever removed: sessions stay as they were, registered keys
      stay registered, and handlers are only appended. */
  lemma WatchOnlyGrows(env: Settings, chan: EventChannel, s: CacheState, obj: Obj, replies: EngineReplies)
    ensures var s' := WatchStep(env, chan, s, obj, replies).0;
            && (forall ns | ns in s.caches :: ns in s'.caches && s'.caches[ns] == s.caches[ns])
            && (forall ns | ns in s.watched :: ns in s'.watched && s.watched[ns] <= s'.watched[ns])
            && s'.caches.Keys <= s.caches.Keys + {obj.namespace}
            && s'.watched.Keys <= s.watched.Keys + {obj.namespace}
            && |s.handlers| <= |s'.handlers| && s'.handlers[..|s.handlers|] == s.handlers
  {
  }

  /** Adding sessions built for their own namespaces keeps the invariant. */
  lemma SessionsAddedKeepConsistent(env: Settings, chan: EventChannel, s: CacheState, caches': map<string, Session>)
    requires Consistent(env, chan, s)
    requires forall ns | ns in s.caches :: ns in caches'
    requires forall ns | ns in caches' :: caches'[ns] == SessionFor(env, ns)
    ensures Consistent(env, chan, s.(caches := caches'))
  {
    var s' := s.(caches := caches');
    forall i | 0 <= i < |s'.handlers|
      ensures AttachedWell(env, chan, s', s'.handlers[i])
    {
      assert AttachedWell(env, chan, s, s.handlers[i]);
    }
  }

  /** Attaching a validated handler on an existing session, for a key not
      yet registered, and recording that key keeps the invariant. */
  lemma AttachKeepsConsistent(env: Settings, chan: EventChannel, s: CacheState, a: Attachment)
    requires Consistent(env, chan, s)
    requires a.informer.namespace in s.caches
    requires a.handler.eventsChan == chan && Admissible(env, a.informer.gvk, a.informer.namespace)
    requires Site(a).1 !in KeysIn(s.watched, a.informer.namespace)
    ensures Consistent(env, chan, CacheState(s.caches,
                                             s.watched[Site(a).0 := KeysIn(s.watched, Site(a).0) + {Site(a).1}],
                                             s.handlers + [a]))
  {
    var (ns, key) := Site(a);
    var s' := CacheState(s.caches, s.watched[ns := KeysIn(s.watched, ns) + {key}], s.handlers + [a]);
    forall i | 0 <= i < |s'.handlers|
      ensures AttachedWell(env, chan, s', s'.handlers[i])
    {
      if i < |s.handlers| {
        assert s'.handlers[i] == s.handlers[i];
        assert AttachedWell(env, chan, s, s.handlers[i]);
      }
    }
    forall i, j | 0 <= i < j < |s'.handlers|
      ensures Site(s'.handlers[i]) != Site(s'.handlers[j])
    {
      assert AttachedWell(env, chan, s, s.handlers[i]);
    }
    forall ns', k | ns' in s'.watched && k in s'.watched[ns']
      ensures exists i :: 0 <= i < |s'.handlers| && Site(s'.handlers[i]) == (ns', k)
    {
      if ns' == ns && k == key {
        assert Site(s'.handlers[|s.handlers|]) == (ns', k);
      } else {
        assert ns' in s.watched && k in s.watched[ns'];
        var i :| 0 <= i < |s.handlers| && Site(s.handlers[i]) == (ns', k);
        assert Site(s'.handlers[i]) == (ns', k);
      }
    }
    assert Consistent(env, chan, s');
  }

  /** watch on an unregistered object keeps the invariant. */
  lemma StartWatchPreservesConsistent(env: Settings, chan: EventChannel, s: CacheState, obj: Obj, replies: EngineReplies)
    requires Consistent(env, chan, s)
    requires Unwatched(env, s, obj)
    ensures Consistent(env, chan, StartWatchStep(env, chan, s, obj, replies).0)
  {
    var (caches', informer) := InformerStep(env, s.caches, obj, replies);
    SessionsAddedKeepConsistent(env, chan, s, caches');
    if informer.Success? {
      var a := Attachment(informer.value, EventToChannelHandler(chan, obj.name));
      assert Site(a) == (obj.namespace, WatchKey(env, obj).value);
      AttachKeepsConsistent(env, chan, s.(caches := caches'), a);
    }
  }

  /** Watch keeps the invariant. */
  lemma WatchPreservesConsistent(env: Settings, chan: EventChannel, s: CacheState, obj: Obj, replies: EngineReplies)
    requires Consistent(env, chan, s)
    ensures Consistent(env, chan, WatchStep(env, chan, s, obj, replies).0)
  {
    if EnsureNamespace(env, obj).Pass? && Unwatched(env, s, obj) {
      StartWatchPreservesConsistent(env, chan, s, obj, replies);
    }
  }

  /** Every handler on the cluster-wide ("") session watches a kind the
      mapper calls cluster-scoped: namespace-scoped kinds never share it. */
  lemma ClusterSessionOnlyClusterScoped(env: Settings, chan: EventChannel, s: CacheState, i: nat)
    requires Consistent(env, chan, s)
    requires i < |s.handlers| && s.handlers[i].informer.namespace == ""
    ensures env.mapper(GroupKindOf(s.handlers[i].informer.gvk)) == Success(ScopeRoot)
  {
    assert AttachedWell(env, chan, s, s.handlers[i]);
  }

  /** Watch called once per reply in `rs`, always for the same object. */
  function WatchRepeatedly(env: Settings, chan: EventChannel, s: CacheState, obj: Obj, rs: seq<EngineReplies>)
    : CacheState
    decreases |rs|
  {
    if rs == [] then s
    else WatchRepeatedly(env, chan, WatchStep(env, chan, s, obj, rs[0]).0, obj, rs[1..])
  }

  /** Once an object's key is registered, further Watch calls change nothing. */
  lemma {:induction false} WatchRepeatedlyOnRegistered(env: Settings, chan: EventChannel, s: CacheState, obj: Obj, rs: seq<EngineReplies>)
    requires !Unwatched(env, s, obj)
    ensures WatchRepeatedly(env, chan, s, obj, rs) == s
    decreases |rs|
  {
    if rs != [] {
      assert WatchStep(env, chan, s, obj, rs[0]).0 == s;
      WatchRepeatedlyOnRegistered(env, chan, s, obj, rs[1..]);
    }
  }

  /** However many times an object is watched, and whatever the engine
      answers, at most one handler is attached for it. */
  lemma {:induction false} RepeatedWatchAttachesOnce(env: Settings, chan: EventChannel, s: CacheState, obj: Obj, rs: seq<EngineReplies>)
    ensures var s' := WatchRepeatedly(env, chan, s, obj, rs);
            && |s.handlers| <= |s'.handlers| <= |s.handlers| + 1
            && s'.handlers[..|s.handlers|] == s.handlers
            && (|s'.handlers| == |s.handlers| + 1 ==>
                  s'.handlers[|s.handlers|].handler == EventToChannelHandler(chan, obj.name))
    decreases |rs|
  {
    if rs != [] {
      var s1 := WatchStep(env, chan, s, obj, rs[0]).0;
      WatchAttachesAtMostOne(env, chan, s, obj, rs[0]);
      if |s1.handlers| == |s.handlers| {
        RepeatedWatchAttachesOnce(env, chan, s1, obj, rs[1..]);
      } else {
        assert WatchKey(env, obj).value in KeysIn(s1.watched, obj.namespace);
        WatchRepeatedlyOnRegistered(env, chan, s1, obj, rs[1..]);
      }
    }
  }

  /** A cluster whose scheme reads an object's own type meta and whose
      mapper calls ConfigMap namespace-scoped and every other kind
      cluster-scoped. */
  function ExampleSettings(): Settings
  {
    Settings(Config("https://api.example:6443"),
             (gk: GroupKind) => Success(if gk.kind == "ConfigMap" then ScopeNamespace else ScopeRoot),
             (o: Obj) => Success(o.typeMeta),
             DefaultResyncTime)
  }

  function ConfigMap(namespace: string, name: string): Obj
  {
    Obj(GroupVersionKind("", "v1", "ConfigMap"), namespace, name)
  }

  /** Watching ConfigMap kube-system/cc-config on a new cache creates the
      kube-system session, registers "ConfigMap/cc-config" and attaches one
      handler; as written, that handler also forwards an update of another
      ConfigMap of the namespace. */
  lemma ConfigMapScenario(chan: EventChannel)
    ensures var s := WatchStep(ExampleSettings(), chan, EmptyState(), ConfigMap("kube-system", "cc-config"),
                               EngineReplies(Pass, Pass));
            && s.1 == Pass
            && s.0.caches == map["kube-system" := SessionFor(ExampleSettings(), "kube-system")]
            && s.0.watched == map["kube-system" := {"ConfigMap/cc-config"}]
            && s.0.handlers == [Attachment(Informer("kube-system", GroupVersionKind("", "v1", "ConfigMap")),
                                           EventToChannelHandler(chan, "cc-config"))]
    ensures Forwarded("cc-config", ClientObject(ConfigMap("kube-system", "other-config")))
              == [GenericEvent(ConfigMap("kube-system", "other-config"))]
  {
    var env := ExampleSettings();
    var obj := ConfigMap("kube-system", "cc-config");
    assert GroupKindString(GroupKind("", "ConfigMap")) == "ConfigMap";
    assert "ConfigMap" + "/" + "cc-config" == "ConfigMap/cc-config";
    assert WatchKey(env, obj) == Success("ConfigMap/cc-config");
    var s := WatchStep(env, chan, EmptyState(), obj, EngineReplies(Pass, Pass));
    assert s.0.watched == map[]["kube-system" := KeysIn(map[], "kube-system") + {"ConfigMap/cc-config"}];
    assert KeysIn(map[], "kube-system") + {"ConfigMap/cc-config"} == {"ConfigMap/cc-config"};
  }

  /** Watching a ConfigMap without a namespace fails and changes nothing. */
  lemma MissingNamespaceScenario(chan: EventChannel, replies: EngineReplies)
    ensures WatchStep(ExampleSettings(), chan, EmptyState(), ConfigMap("", "cc-config"), replies)
              == (EmptyState(), Fail(NamespaceRequired))
  {
  }

  // ---------------------------------------------------------------------
  // The cache as an object

  /** namespacedCache.  `handlers` records the handlers attached to the
      sessions' informers, which in the source live inside the informers. */
  class NamespacedCache {
    var caches: map<string, Session>
    const env: Settings
    const eventChan: EventChannel
    var watchedResources: map<string, set<string>>
    var handlers: seq<Attachment>

    function State(): CacheState
      reads this
    {
      CacheState(caches, watchedResources, handlers)
    }

    ghost predicate Valid()
      reads this
    {
      Consistent(env, eventChan, State())
    }

    constructor(settings: Settings)
      ensures Valid()
      ensures env == settings && fresh(eventChan) && eventChan.sent == []
      ensures caches == map[] && watchedResources == map[] && handlers == []
    {
      caches := map[];
      env := settings;
      eventChan := new EventChannel();
      watchedResources := map[];
      handlers := [];
      new;
      EmptyStateConsistent(settings, eventChan);
    }

    /** EventStream: always the channel made at construction. */
    method EventStream() returns (c: EventChannel)
      ensures c == eventChan
    {
      c := eventChan;
    }

    method Watch(obj: Obj, replies: EngineReplies) returns (err: Outcome)
      requires Valid()
      modifies this
      ensures Valid()
      ensures (State(), err) == WatchStep(env, eventChan, old(State()), obj, replies)
    {
      var check := EnsureNamespace(env, obj);
      if check.Fail? {
        return check;
      }
      if obj.namespace !in watchedResources {
        err := StartWatch(obj, replies);
        return;
      }
      var key := WatchKey(env, obj);
      match key {
        case Failure(e) =>
          return Fail(e);
        case Success(k) =>
          if k !in watchedResources[obj.namespace] {
            err := StartWatch(obj, replies);
            return;
          }
      }
      return Pass;
    }

    /** watch. */
    method StartWatch(obj: Obj, replies: EngineReplies) returns (err: Outcome)
      requires Valid()
      requires Unwatched(env, State(), obj)
      modifies this
      ensures Valid()
      ensures (State(), err) == StartWatchStep(env, eventChan, old(State()), obj, replies)
    {
      ghost var s0 := State();
      var informer := GetInformer(obj, replies);
      if informer.Failure? {
        return Pass;
      }
      var key := WatchKey(env, obj);
      match key {
        case Failure(e) =>
          return Fail(e);
        case Success(k) =>
          // informer.AddEventHandler(&eventToChannelHandler{...})
          handlers := handlers + [Attachment(informer.value, EventToChannelHandler(eventChan, obj.name))];
          var ns := obj.namespace;
          if ns !in watchedResources {
            watchedResources := watchedResources[ns := {}];
          }
          watchedResources := watchedResources[ns := watchedResources[ns] + {k}];
          assert watchedResources == s0.watched[ns := KeysIn(s0.watched, ns) + {k}];
          StartWatchPreservesConsistent(env, eventChan, s0, obj, replies);
          return Pass;
      }
    }

    /** getInformer. */
    method GetInformer(obj: Obj, replies: EngineReplies) returns (r: Result<Informer>)
      requires Valid()
      modifies this`caches
      ensures Valid()
      ensures (caches, r) == InformerStep(env, old(caches), obj, replies)
    {
      var check := EnsureNamespace(env, obj);
      if check.Fail? {
        return Failure(check.error);
      }
      var ns := obj.namespace;
      if ns in caches {
        return SessionInformer(env, ns, obj, replies.getInformer);
      }
      if replies.cacheNew.Fail? {
        return Failure(replies.cacheNew.error);
      }
      caches := caches[ns := SessionFor(env, ns)];
      // go c.Start(ctx): the session's background synchronisation is not modelled
      return SessionInformer(env, ns, obj, replies.getInformer);
    }
  }

  /** NewNamespacedCache. */
  method NewNamespacedCache(opts: CacheOptions, defaultScheme: Scheme,
                            newDiscoveryRESTMapper: Config -> Result<RESTMapper>)
    returns (r: Result<NamespacedCache>)
    ensures r.Failure? <==> ResolveOptions(opts, defaultScheme, newDiscoveryRESTMapper).Failure?
    ensures r.Failure? ==> r.error == ResolveOptions(opts, defaultScheme, newDiscoveryRESTMapper).error
    ensures r.Success? ==>
              && fresh(r.value) && r.value.Valid()
              && r.value.env == ResolveOptions(opts, defaultScheme, newDiscoveryRESTMapper).value
              && r.value.caches == map[] && r.value.watchedResources == map[] && r.value.handlers == []
              && fresh(r.value.eventChan) && r.value.eventChan.sent == []
  {
    var settings := ResolveOptions(opts, defaultScheme, newDiscoveryRESTMapper);
    if settings.Failure? {
      return Failure(settings.error);
    }
    var c := new NamespacedCache(settings.value);
    return Success(c);
  }
}
