/** Values handled by the GlusterFS simple provisioner (package pkg/volume). */
module GlusterTypes {

  datatype Option<+T> = None | Some(value: T)

  datatype Result<+T, +E> = Success(value: T) | Failure(error: E)

  /** Annotation stamped on every provisioned volume, and its value. */
  const AnnCreatedBy: string := "kubernetes.io/createdby"
  const CreatedBy: string := "glusterfs-simple-provisioner"

  /** Prefix of the name shared by the dynamic Endpoints and Service objects. */
  const DynamicEpSvcPrefix: string := "glusterfs-simple-"

  /** Label linking the Endpoints and Service objects back to their claim. */
  const ProvisionedForPvcLabel: string := "gluster.kubernetes.io/provisioned-for-pvc"

  /** The allocator library's key for the volume's group-id annotation. */
  const VolumeGidAnnotationKey: string := "pv.beta.kubernetes.io/gid"

  /** One `host:path` entry of the brick-root list. */
  datatype BrickRoot = BrickRoot(host: string, path: string)

  /** The parsed storage-class parameters of one request. */
  datatype ProvisionerConfig = ProvisionerConfig(
    brickRootPaths: seq<BrickRoot>,
    volumeName: string,
    volumeType: string,
    forceCreate: bool)

  /** What configuration parsing guarantees: at least one brick root. */
  predicate ValidConfig(cfg: ProvisionerConfig) {
    |cfg.brickRootPaths| > 0
  }

  /** glusterBrick: one resolved brick directory. */
  datatype Brick = Brick(host: string, path: string)

  /** The arguments of one ExecuteCommands call: shell commands for one host. */
  datatype Batch = Batch(host: string, cmds: seq<string>)

  datatype Kind = EndpointsKind | ServiceKind

  /** An entry of the object store: (kind, namespace, name). */
  datatype ObjectKey = ObjectKey(kind: Kind, namespace: string, name: string)

  /** Every call the orchestrator makes to its environment, in the order made. */
  datatype Event =
    | Exec(batch: Batch)
    | CreateObject(key: ObjectKey)
    | DeleteObject(key: ObjectKey)
    | AllocateGid(pvName: string)
    | ReleaseGid(pvName: string)

  /** The error kinds the Kubernetes client reports. */
  datatype ApiError = AlreadyExists | NotFound | ApiFailure

  /** The errors Provision, Delete and their helpers return. */
  datatype Error =
    | SelectorNotSupported
    | AllocatorFailed
    | InvalidParameter(reason: string)
    | CommandFailed(batch: Batch)
    | NoKubeClient
    | EndpointCreateFailed(cause: ApiError)
    | ServiceCreateFailed(cause: ApiError)
    | ClassLookupFailed(reason: string)
    | ClaimRefNil
    | NamespaceEmpty

  /** The provisioning framework's result codes. */
  datatype ProvisioningState =
    | ProvisioningFinished
    | ProvisioningInBackground
    | ProvisioningNoChange
    | ProvisioningReschedule

  /** The claim of a provisioning request; `hasSelector` is Spec.Selector != nil. */
  datatype Claim = Claim(namespace: string, name: string, hasSelector: bool)

  datatype ProvisionOptions = ProvisionOptions(pvName: string, pvc: Claim)

  datatype GlusterfsSource = GlusterfsSource(endpointsName: string, path: string, readOnly: bool)

  datatype ClaimRef = ClaimRef(namespace: string, name: string)

  datatype PersistentVolume = PersistentVolume(
    name: string,
    annotations: map<string, string>,
    glusterfs: Option<GlusterfsSource>,
    claimRef: Option<ClaimRef>)

  datatype EndpointAddress = EndpointAddress(ip: string)

  datatype Port = Port(port: int, protocol: string)

  datatype EndpointSubset = EndpointSubset(addresses: seq<EndpointAddress>, ports: seq<Port>)

  datatype Endpoints = Endpoints(
    namespace: string,
    name: string,
    labels: map<string, string>,
    subsets: seq<EndpointSubset>)

  datatype Service = Service(
    namespace: string,
    name: string,
    labels: map<string, string>,
    ports: seq<Port>)

  /** Provision's three results: the volume, the result code and the error. */
  datatype ProvisionReturn = ProvisionReturn(
    pv: Option<PersistentVolume>,
    state: ProvisioningState,
    err: Option<Error>)
}
