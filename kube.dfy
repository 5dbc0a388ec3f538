/** The pieces of the Kubernetes client libraries that the operator's code
    relies on, reduced to values: object identities, group/version/kind
    triples, errors, and the scheme and REST-mapper lookups as total
    functions that either answer or fail. */
module Kube {

  datatype Option<T> = None | Some(value: T)

  /** A value or the error a Go function returned beside it. */
  datatype Result<T> = Success(value: T) | Failure(error: Error)

  /** A bare Go `error` return: nil (Pass) or an error. */
  datatype Outcome = Pass | Fail(error: Error)

  /** A Go error, identified by its message text. */
  datatype Error = Error(message: string)

  /** schema.GroupVersionKind. */
  datatype GroupVersionKind = GroupVersionKind(group: string, version: string, kind: string)

  /** schema.GroupKind: a kind without its API version. */
  datatype GroupKind = GroupKind(group: string, kind: string)

  /** GroupVersionKind.GroupKind(): drops the version. */
  function GroupKindOf(gvk: GroupVersionKind): GroupKind
  {
    GroupKind(gvk.group, gvk.kind)
  }

  /** GroupKind.String(): "Kind" for the core group, "Kind.group" otherwise. */
  function GroupKindString(gk: GroupKind): string
  {
    if gk.group == "" then gk.kind else gk.kind + "." + gk.group
  }

  /** A client.Object: the type meta it carries (what
      GetObjectKind().GroupVersionKind() reads) and its metadata identity. */
  datatype Obj = Obj(typeMeta: GroupVersionKind, namespace: string, name: string)

  /** types.NamespacedName, the key client.ObjectKeyFromObject builds. */
  datatype NamespacedName = NamespacedName(namespace: string, name: string)

  /** rest.Config, reduced to the API server it points at. */
  datatype Config = Config(host: string)

  /** RESTScopeName of a RESTMapping: namespace-scoped or cluster-scoped ("root"). */
  datatype RESTScopeName = ScopeNamespace | ScopeRoot

  /** apiutil.GVKForObject against a runtime.Scheme. */
  type Scheme = Obj -> Result<GroupVersionKind>

  /** meta.RESTMapper, reduced to the scope its RESTMapping reports for a group-kind. */
  type RESTMapper = GroupKind -> Result<RESTScopeName>
}
