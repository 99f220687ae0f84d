/**
 * The provisioner itself, step by step as pkg/volume/provision.go and
 * pkg/volume/delete.go write it: loops that fill the brick and address
 * slices, error values threaded through createVolume, best-effort teardown.
 * Every call the provisioner makes into its environment updates `trace` and
 * `objects`; each method is proved to leave exactly the state, and return
 * exactly the value, that its specification function in ProvisionSpec or
 * DeleteSpec describes, so the lemmas proved there hold of these methods.
 */
module Volume {
  import opened GlusterTypes
  import opened Strings
  import opened Commands
  import opened Effects
  import DeleteSpec
  import ProvisionSpec

  class GlusterfsProvisioner {
    /** Outcomes of the executor, the Kubernetes client and the allocator. */
    const env: Env
    /** Every call made so far. */
    var trace: seq<Event>
    /** The Endpoints and Services present in the cluster. */
    var objects: set<ObjectKey>

    function State(): World
      reads this
    {
      World(trace, objects)
    }

    constructor(env: Env, objects: set<ObjectKey>)
      ensures this.env == env
      ensures State() == World([], objects)
    {
      this.env := env;
      this.trace := [];
      this.objects := objects;
    }

    // -------------------------------------------------------------------------
    // Calls into the environment

    /** ExecuteCommands: run a batch of shell commands on one host. */
    method ExecuteCommands(host: string, cmds: seq<string>) returns (err: Option<Error>)
      modifies this
      ensures (State(), err) == Execute(env, old(State()), Batch(host, cmds))
    {
      var (w, e) := Execute(env, State(), Batch(host, cmds));
      trace, objects, err := w.trace, w.objects, e;
    }

    /** The client's Create of an Endpoints or a Service. */
    method ClientCreate(key: ObjectKey) returns (err: Option<ApiError>)
      modifies this
      ensures (State(), err) == CreateIn(env, old(State()), key)
    {
      var (w, e) := CreateIn(env, State(), key);
      trace, objects, err := w.trace, w.objects, e;
    }

    /** The client's Delete of a Service. */
    method ClientDelete(key: ObjectKey) returns (err: Option<ApiError>)
      modifies this
      ensures (State(), err) == DeleteIn(env, old(State()), key)
    {
      var (w, e) := DeleteIn(env, State(), key);
      trace, objects, err := w.trace, w.objects, e;
    }

    /** The allocator's AllocateNext; None when it fails. */
    method AllocateNext(pvName: string) returns (gid: Option<int>)
      modifies this
      ensures (State(), gid) == Effects.AllocateNext(env, old(State()), pvName)
    {
      var (w, g) := Effects.AllocateNext(env, State(), pvName);
      trace, objects, gid := w.trace, w.objects, g;
    }

    /** The allocator's Release; true when it fails. */
    method Release(pvName: string) returns (failed: bool)
      modifies this
      ensures (State(), failed) == Effects.Release(env, old(State()), pvName)
    {
      var (w, f) := Effects.Release(env, State(), pvName);
      trace, objects, failed := w.trace, w.objects, f;
    }

    // -------------------------------------------------------------------------
    // Creation

    /**
     * Provision: reject a selector, allocate a group id, use the parsed
     * parameters, create the volume and describe it.
     */
    method Provision(options: ProvisionOptions, config: Result<ProvisionerConfig, string>) returns (r: ProvisionReturn)
      requires config.Success? ==> ValidConfig(config.value)
      modifies this
      ensures (State(), r) == ProvisionSpec.Provision(env, old(State()), options, config)
    {
      if options.pvc.hasSelector {
        return ProvisionReturn(None, ProvisioningFinished, Some(SelectorNotSupported));
      }
      var gid := AllocateNext(options.pvName);
      if gid.None? {
        return ProvisionReturn(None, ProvisioningFinished, Some(AllocatorFailed));
      }
      if config.Failure? {
        return ProvisionReturn(None, ProvisioningFinished, Some(InvalidParameter(config.error)));
      }
      var source := CreateVolume(options.pvc.namespace, options.pvc.name, config.value, gid.value);
      if source.Failure? {
        return ProvisionReturn(None, ProvisioningFinished, Some(source.error));
      }
      var annotations := map[AnnCreatedBy := CreatedBy, VolumeGidAnnotationKey := FormatInt(gid.value)];
      var pv := PersistentVolume(options.pvName, annotations, Some(source.value), None);
      return ProvisionReturn(Some(pv), ProvisioningFinished, None);
    }

    /** getClusterNodes: the host of every brick root, in order. */
    method GetClusterNodes(cfg: ProvisionerConfig) returns (nodes: seq<string>)
      ensures |nodes| == |cfg.brickRootPaths|
      ensures forall i :: 0 <= i < |nodes| ==> nodes[i] == cfg.brickRootPaths[i].host
    {
      var a := new string[|cfg.brickRootPaths|];
      for i := 0 to |cfg.brickRootPaths|
        invariant forall j :: 0 <= j < i ==> a[j] == cfg.brickRootPaths[j].host
      {
        a[i] := cfg.brickRootPaths[i].host;
      }
      nodes := a[..];
    }

    /**
     * createVolume: bricks, then the volume, then the Endpoints and Service;
     * the first error stops the sequence and the whole volume is torn down.
     */
    method CreateVolume(namespace: string, name: string, cfg: ProvisionerConfig, gid: int)
      returns (r: Result<GlusterfsSource, Error>)
      requires ValidConfig(cfg)
      modifies this
      ensures (State(), r) == ProvisionSpec.CreateVolume(env, old(State()), namespace, name, cfg, gid)
    {
      var err: Option<Error> := None;
      var bricks: seq<Brick> := [];
      var created := CreateBricks(namespace, name, cfg, gid);
      if created.Failure? {
        err := Some(created.error);
      } else {
        bricks := created.value;
      }
      ghost var w1 := State();
      if err.None? {
        err := CreateGlusterVolume(bricks, cfg);
      }
      ghost var w2 := State();
      assert (w2, err) == (if created.Failure? then (w1, Some(created.error))
                           else ProvisionSpec.CreateGlusterVolume(env, w1, created.value, cfg));
      if err.None? {
        var epServiceName := DynamicEpSvcPrefix + name;
        var hostips := GetClusterNodes(cfg);
        assert hostips == ProvisionSpec.ClusterNodes(cfg);
        var published := CreateEndpointService(namespace, epServiceName, hostips, name);
        if published.Success? {
          return Success(GlusterfsSource(published.value.0.name, cfg.volumeName, false));
        }
        err := Some(published.error);
      }
      DeleteVolume(namespace, name, cfg);
      return Failure(err.value);
    }

    /**
     * createBricks: for each root in order, record the brick and create its
     * directory; return at the first host that fails.
     */
    method CreateBricks(namespace: string, pvcName: string, cfg: ProvisionerConfig, gid: int)
      returns (r: Result<seq<Brick>, Error>)
      modifies this
      ensures (State(), r) == ProvisionSpec.CreateBricks(env, old(State()), namespace, pvcName, cfg, gid)
    {
      var roots := cfg.brickRootPaths;
      var bricks := new Brick[|roots|];
      var brickName := JoinWith("-", [pvcName, cfg.volumeName]);
      ghost var batches := MkdirBatches(roots, namespace, brickName, gid);
      var i := 0;
      while i < |roots|
        invariant 0 <= i <= |roots|
        invariant forall j :: 0 <= j < i ==> bricks[j] == BrickFor(roots[j], namespace, brickName)
        invariant RunUntilFailure(env, old(State()), batches) == RunUntilFailure(env, State(), batches[i..])
      {
        var host := roots[i].host;
        var path := PathJoin([roots[i].path, namespace, brickName]);
        bricks[i] := Brick(host, path);
        var cmds := ["mkdir -p " + path, "chown :" + FormatInt(gid) + " " + path, "chmod 0771 " + path];
        assert batches[i..][0] == Batch(host, cmds);
        assert batches[i..][1..] == batches[i + 1..];
        var err := ExecuteCommands(host, cmds);
        if err.Some? {
          return Failure(err.value);
        }
        i := i + 1;
      }
      assert bricks[..] == Bricks(roots, namespace, brickName);
      return Success(bricks[..]);
    }

    /**
     * createGlusterVolume: build the create command brick by brick, then
     * create and start the volume on the first brick's host.
     */
    method CreateGlusterVolume(bricks: seq<Brick>, cfg: ProvisionerConfig) returns (err: Option<Error>)
      requires |bricks| > 0
      modifies this
      ensures (State(), err) == ProvisionSpec.CreateGlusterVolume(env, old(State()), bricks, cfg)
    {
      var cmd := "gluster --mode=script volume create " + cfg.volumeName + " " + cfg.volumeType;
      var i := 0;
      while i < |bricks|
        invariant 0 <= i <= |bricks|
        invariant State() == old(State())
        invariant cmd == CreateVolumePrefix(cfg.volumeName, cfg.volumeType) + BrickArgs(bricks[..i])
      {
        BrickArgsAppend(bricks[..i], bricks[i]);
        assert bricks[..i + 1] == bricks[..i] + [bricks[i]];
        cmd := cmd + " " + bricks[i].host + ":" + bricks[i].path;
        i := i + 1;
      }
      assert bricks[..|bricks|] == bricks;
      if cfg.forceCreate {
        cmd := cmd + " force";
      } else {
        assert cmd == cmd + "";
      }
      assert cmd == CreateVolumeCommand(cfg, bricks);
      var cmds := [cmd, "gluster --mode=script volume start " + cfg.volumeName];
      var host := bricks[0].host;
      err := ExecuteCommands(host, cmds);
    }

    /**
     * createEndpointService: build the address list, then create the
     * Endpoints and the Service, each AlreadyExists counting as success.
     */
    method CreateEndpointService(namespace: string, epServiceName: string, hostips: seq<string>, pvcname: string)
      returns (r: Result<(Endpoints, Service), Error>)
      modifies this
      ensures (State(), r) == ProvisionSpec.CreateEndpointService(env, old(State()), namespace, epServiceName, hostips, pvcname)
    {
      var addrlist := new EndpointAddress[|hostips|];
      for i := 0 to |hostips|
        invariant State() == old(State())
        invariant forall j :: 0 <= j < i ==> addrlist[j] == EndpointAddress(hostips[j])
      {
        addrlist[i] := EndpointAddress(hostips[i]);
      }
      assert addrlist[..] == ProvisionSpec.EndpointAddresses(hostips);
      var endpoint := Endpoints(namespace, epServiceName, map[ProvisionedForPvcLabel := pvcname],
                                [EndpointSubset(addrlist[..], [Port(1, "TCP")])]);
      if !env.hasClient {
        return Failure(NoKubeClient);
      }
      var err := ClientCreate(DeleteSpec.EndpointsKey(namespace, epServiceName));
      if err == Some(AlreadyExists) {
        err := None;
      }
      if err.Some? {
        return Failure(EndpointCreateFailed(err.value));
      }
      var service := Service(namespace, epServiceName, map[ProvisionedForPvcLabel := pvcname], [Port(1, "TCP")]);
      err := ClientCreate(DeleteSpec.ServiceKey(namespace, epServiceName));
      if err == Some(AlreadyExists) {
        err := None;
      }
      if err.Some? {
        return Failure(ServiceCreateFailed(err.value));
      }
      return Success((endpoint, service));
    }

    // -------------------------------------------------------------------------
    // Teardown

    /**
     * Delete: look up the class, use its parsed parameters, check the claim
     * reference, tear the volume down and release the group id; a failed
     * release is only logged.
     */
    method Delete(volume: PersistentVolume, classLookup: Option<string>, config: Result<ProvisionerConfig, string>)
      returns (err: Option<Error>)
      requires config.Success? ==> ValidConfig(config.value)
      modifies this
      ensures (State(), err) == DeleteSpec.Delete(env, old(State()), volume, classLookup, config)
    {
      if classLookup.Some? {
        return Some(ClassLookupFailed(classLookup.value));
      }
      if config.Failure? {
        return Some(InvalidParameter(config.error));
      }
      var pvc := volume.claimRef;
      if pvc.None? {
        return Some(ClaimRefNil);
      }
      if pvc.value.namespace == "" {
        return Some(NamespaceEmpty);
      }
      DeleteVolume(pvc.value.namespace, pvc.value.name, config.value);
      var failed := Release(volume.name);
      return None;
    }

    /** deleteVolume: the three teardown steps, each whatever the others did. */
    method DeleteVolume(namespace: string, name: string, cfg: ProvisionerConfig)
      requires ValidConfig(cfg)
      modifies this
      ensures State() == DeleteSpec.DeleteVolume(env, old(State()), namespace, name, cfg)
    {
      DeleteGlusterVolume(namespace, name, cfg);
      DeleteBricks(namespace, name, cfg);
      var epServiceName := DynamicEpSvcPrefix + name;
      var err := DeleteEndpointService(namespace, epServiceName);
    }

    /** deleteGlusterVolume: stop the volume, and delete it only if that worked. */
    method DeleteGlusterVolume(namespace: string, name: string, cfg: ProvisionerConfig)
      requires ValidConfig(cfg)
      modifies this
      ensures State() == DeleteSpec.DeleteGlusterVolume(env, old(State()), cfg)
    {
      var host := cfg.brickRootPaths[0].host;
      var cmds := ["gluster --mode=script volume stop " + cfg.volumeName + " force"];
      var err := ExecuteCommands(host, cmds);
      if err.None? {
        cmds := ["gluster --mode=script volume delete " + cfg.volumeName];
        err := ExecuteCommands(host, cmds);
      }
    }

    /** deleteBricks: remove the brick directory on every root; failures are only logged. */
    method DeleteBricks(namespace: string, pvcName: string, cfg: ProvisionerConfig)
      modifies this
      ensures State() == DeleteSpec.DeleteBricks(env, old(State()), namespace, pvcName, cfg)
    {
      var roots := cfg.brickRootPaths;
      var brickName := JoinWith("-", [pvcName, cfg.volumeName]);
      ghost var batches := RemoveBatches(roots, namespace, brickName);
      var i := 0;
      while i < |roots|
        invariant 0 <= i <= |roots|
        invariant RunAll(env, old(State()), batches) == RunAll(env, State(), batches[i..])
      {
        var host := roots[i].host;
        var path := PathJoin([roots[i].path, namespace, brickName]);
        var cmds := ["rm -rf " + path];
        assert batches[i..][0] == Batch(host, cmds);
        assert batches[i..][1..] == batches[i + 1..];
        var err := ExecuteCommands(host, cmds);
        i := i + 1;
      }
    }

    /** deleteEndpointService: delete the Service; a failed delete is only logged. */
    method DeleteEndpointService(namespace: string, epServiceName: string) returns (err: Option<Error>)
      modifies this
      ensures (State(), err) == DeleteSpec.DeleteEndpointService(env, old(State()), namespace, epServiceName)
    {
      if !env.hasClient {
        return Some(NoKubeClient);
      }
      var deleteErr := ClientDelete(DeleteSpec.ServiceKey(namespace, epServiceName));
      return None;
    }
  }
}
