/** The Infrastructure platform owner of pkg/platform/infrastructure.go.

    It remembers the cluster's Infrastructure objects, maps any event to one
    reconcile request per remembered object, and turns a fetched
    Infrastructure into the list of resources its platform owns.  The calls
    into the API server (List and Get) are represented by their results,
    and GetAWSResources, which is not part of this model, by the list it
    returns. */
module Platform {
  import opened Kube
  import Cloud

  /** configv1.PlatformType. */
  type PlatformType = string

  const AWSPlatformType: PlatformType := "AWS"

  /** configv1.Infrastructure: its metadata identity and Status.Platform. */
  datatype Infrastructure = Infrastructure(namespace: string, name: string, platform: PlatformType)

  /** reconcile.Request. */
  datatype Request = Request(namespacedName: NamespacedName)

  /** client.ObjectKeyFromObject. */
  function ObjectKeyFromObject(infra: Infrastructure): NamespacedName
  {
    NamespacedName(infra.namespace, infra.name)
  }

  /** `rs` holds one request per object of `infras`, in the same order,
      each keyed by that object's namespace and name. */
  predicate RequestsFor(rs: seq<Request>, infras: seq<Infrastructure>)
  {
    && |rs| == |infras|
    && forall i | 0 <= i < |rs| :: rs[i] == Request(ObjectKeyFromObject(infras[i]))
  }

  /** getResources: the AWS resources for the AWS platform, nil for any other. */
  function GetResources(platformType: PlatformType, awsResources: Cloud.OwnedResources): (r: seq<Obj>)
    ensures platformType == AWSPlatformType ==> r == awsResources
    ensures platformType != AWSPlatformType ==> r == []
  {
    if platformType == AWSPlatformType then awsResources else []
  }

  /** The three results of GetOwner; None stands for nil. */
  datatype OwnerResult = OwnerResult(owner: Option<Infrastructure>, resources: seq<Obj>, err: Option<Error>)

  /** InfrastrucutreOwner. */
  class InfrastructureOwner {
    var objects: seq<Infrastructure>

    /** The zero value &InfrastrucutreOwner{}. */
    constructor()
      ensures objects == []
    {
      objects := [];
    }

    /** Object: a new, empty Infrastructure. */
    method Object() returns (obj: Infrastructure)
      ensures obj.namespace == "" && obj.name == "" && obj.platform == ""
    {
      obj := Infrastructure("", "", "");
    }

    /** Init, given what listing the Infrastructure objects returned.  The
        objects are replaced only by a successful, non-empty list. */
    method Init(listed: Result<seq<Infrastructure>>) returns (ok: bool)
      modifies this
      ensures ok <==> listed.Success? && |listed.value| > 0
      ensures objects == if ok then listed.value else old(objects)
    {
      if listed.Failure? {
        return false;
      } else if |listed.value| == 0 {
        return false;
      }
      objects := listed.value;
      return true;
    }

    /** Mapper: the returned function ignores its argument and always
        yields one request per object held when Mapper was called. */
    method Mapper() returns (mapFunc: Obj -> seq<Request>)
      ensures forall o :: RequestsFor(mapFunc(o), objects)
      ensures forall o1, o2 :: mapFunc(o1) == mapFunc(o2)
    {
      var mapObjects: seq<Request> := [];
      for i := 0 to |objects|
        invariant RequestsFor(mapObjects, objects[..i])
      {
        mapObjects := mapObjects + [Request(ObjectKeyFromObject(objects[i]))];
      }
      assert objects[..|objects|] == objects;
      mapFunc := (o: Obj) => mapObjects;
    }

    /** GetOwner, given what Get returns for a key: on an error, nil owner,
        nil resources and that error; otherwise the fetched object and the
        resources of its platform. */
    function GetOwner(get: NamespacedName -> Result<Infrastructure>, key: NamespacedName,
                      awsResources: Cloud.OwnedResources): (r: OwnerResult)
      ensures r.err.Some? <==> get(key).Failure?
      ensures r.err.Some? ==> r.err.value == get(key).error && r.owner.None? && r.resources == []
      ensures r.err.None? ==>
                && r.owner == Some(get(key).value)
                && r.resources == GetResources(get(key).value.platform, awsResources)
    {
      match get(key)
      case Failure(e) => OwnerResult(None, [], Some(e))
      case Success(infra) => OwnerResult(Some(infra), GetResources(infra.platform, awsResources), None)
    }
  }

  /** The function Mapper returns is a snapshot: changing the owner's
      objects afterwards does not change what it yields. */
  method MapperSnapshotsObjects(owner: InfrastructureOwner, later: seq<Infrastructure>, o: Obj)
    returns (mapFunc: Obj -> seq<Request>)
    modifies owner
    ensures owner.objects == later
    ensures RequestsFor(mapFunc(o), old(owner.objects))
  {
    mapFunc := owner.Mapper();
    owner.objects := later;
  }
}
